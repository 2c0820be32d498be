/** The storage role (internal/roleruntime): readiness, request validation, authorization and
    the choice of a provider, and what the first says about the other three. */
module StorageReady {
  import opened Base
  import opened Text
  import opened RuntimeConfig

  /** A signer and the optional interfaces it implements. */
  datatype Signer = Signer(id: string, multipart: bool, metadata: bool)

  type Providers = map<string, Option<Signer>>

  datatype Target = Target(provider: string, bucket: string, readOnly: bool)

  datatype Config = Config(
    selection: Selection,
    signer: Option<Signer>,
    providers: Providers,
    targets: map<string, Target>,
    defaultTtl: int,
    maxTtl: int,
    policy: bool,        // an access policy is configured
    verifier: bool,      // a workload verifier is configured
    authRequired: bool)

  datatype Request = Request(
    target: string, bucket: string, objectKey: string, contentType: string, expiresInSeconds: int)

  datatype Presigned = Presigned(bucket: string, objectKey: string, contentType: string, expiresIn: int)

  const DEFAULT := "default"

  /** The capabilities that need a provider. */
  datatype Capability = Upload | Download | Presign | Multipart | Metadata {
    function Name(): string {
      match this
      case Upload => "upload"
      case Download => "download"
      case Presign => "presign"
      case Multipart => "multipart"
      case Metadata => "metadata"
    }
  }

  /** `hasCapability` for the storage role. */
  predicate Lists(cfg: Config, cap: Capability) {
    STORAGE in cfg.selection.capabilities && cap.Name() in cfg.selection.capabilities[STORAGE]
  }

  /** storagetarget.Registry.Resolve and storageprovider.Registry.Resolve. */
  function Resolve<T>(registry: map<string, T>, name: string): Option<T> {
    var key := TrimSpace(name);
    if key in registry then Some(registry[key]) else None
  }

  /** The signer of a provider, if the provider is there and has one. */
  function SignerOf(providers: Providers, provider: string): Option<Signer> {
    var found := Resolve(providers, provider);
    if found.Some? then found.value else None
  }

  function SignerForTarget(cfg: Config, name: string): Option<Signer> {
    if cfg.providers == map[] then cfg.signer
    else if cfg.targets == map[] then SignerOf(cfg.providers, DEFAULT)
    else
      var target := Resolve(cfg.targets, TrimSpace(name));
      if target.None? then None else SignerOf(cfg.providers, target.value.provider)
  }

  // ---- Request validation ----

  /** Products of 64-bit integers wrap around. */
  function Wrap(x: int): (r: int)
    ensures -0x8000_0000_0000_0000 <= r < 0x8000_0000_0000_0000
  {
    (x + 0x8000_0000_0000_0000) % 0x1_0000_0000_0000_0000 - 0x8000_0000_0000_0000
  }

  function DefaultTtl(cfg: Config): int { if cfg.defaultTtl <= 0 then 15 * MINUTE else cfg.defaultTtl }

  function Ttl(cfg: Config, seconds: int): int {
    if seconds > 0 then Wrap(seconds * SECOND) else DefaultTtl(cfg)
  }

  function MaxTtl(cfg: Config): int { if cfg.maxTtl <= 0 then 60 * MINUTE else cfg.maxTtl }

  predicate Acceptable(cfg: Config, seconds: int) { 0 < Ttl(cfg, seconds) <= MaxTtl(cfg) }

  predicate HasDots(key: string) { exists i | 0 <= i < |key| - 1 :: key[i] == '.' && key[i + 1] == '.' }

  predicate GoodKey(key: string) { key != "" && key[0] != '/' && !HasDots(key) && '\\' !in key }

  /** The bucket a request is for: its target's, or in the absence of targets its own. */
  function BucketFor(cfg: Config, in_: Request): Option<string> {
    if cfg.targets == map[] then
      var bucket := TrimSpace(in_.bucket);
      if bucket == "" then None else Some(bucket)
    else
      var name := TrimSpace(in_.target);
      var target := Resolve(cfg.targets, name);
      if name == "" || target.None? then None else Some(target.value.bucket)
  }

  function Accepted(bucket: Option<string>, key: string, contentType: string, ttl: int, maxTtl: int)
    : Option<Presigned>
  {
    if bucket.None? || !GoodKey(key) || ttl <= 0 || ttl > maxTtl then None
    else Some(Presigned(bucket.value, key, contentType, ttl))
  }

  /** `validateStorageRequest`; the reason for a refusal is not kept. */
  function Validated(cfg: Config, in_: Request): Option<Presigned> {
    Accepted(BucketFor(cfg, in_), TrimSpace(in_.objectKey), TrimSpace(in_.contentType), Ttl(cfg, in_.expiresInSeconds),
             MaxTtl(cfg))
  }

  // ---- Authorization ----

  datatype Decision = Granted | Refused | Broken

  /** The policy allows or denies an action on a target, or its evaluation fails. */
  datatype Answer = Allow | Deny | Fails

  /** Who asks: whether the workload token and the actor check out, and the policy's answers, by
      target name and action. */
  datatype Caller = Caller(identified: bool, policy: (string, string) -> Answer)

  /** `authorizeStorage`.  `Broken` are the answers with status 503: no policy, no verifier, or
      a policy that fails. */
  function Authorized(cfg: Config, name: string, action: string, write: bool, who: Caller): Decision {
    if cfg.targets == map[] then Granted
    else
      var target := Resolve(cfg.targets, TrimSpace(name));
      if target.None? || (write && target.value.readOnly) then Refused
      else if !cfg.policy || (!cfg.verifier && cfg.authRequired) then Broken
      else if !who.identified then Refused
      else
        match who.policy(TrimSpace(name), action)
        case Allow => Granted
        case Deny => Refused
        case Fails => Broken
  }

  // ---- Readiness ----

  predicate Supports(signer: Option<Signer>, cap: Capability) {
    && signer.Some?
    && (cap.Multipart? ==> signer.value.multipart)
    && (cap.Metadata? ==> signer.value.metadata)
  }

  /** Which optional interfaces the listed capabilities call for. */
  datatype Needs = Needs(multipart: bool, metadata: bool)

  function NeedsOf(cfg: Config): Needs { Needs(Lists(cfg, Multipart), Lists(cfg, Metadata)) }

  predicate Fit(needs: Needs, signer: Option<Signer>) {
    && signer.Some?
    && (needs.multipart ==> signer.value.multipart)
    && (needs.metadata ==> signer.value.metadata)
  }

  predicate ProvidersReady(cfg: Config) {
    var needs := NeedsOf(cfg);
    if cfg.providers == map[] then Fit(needs, cfg.signer)
    else if cfg.targets == map[] then Fit(needs, SignerOf(cfg.providers, DEFAULT))
    else forall name | name in cfg.targets :: Fit(needs, SignerOf(cfg.providers, cfg.targets[name].provider))
  }

  predicate ProviderRequired(cfg: Config) { exists cap :: Lists(cfg, cap) }

  /** What `GET /health/ready` answers. */
  predicate Ready(cfg: Config) {
    STORAGE in cfg.selection.roles ==>
      && (cfg.authRequired ==> cfg.verifier)
      && (cfg.targets != map[] ==> cfg.policy)
      && (ProviderRequired(cfg) ==> ProvidersReady(cfg))
  }

  datatype Reason = SignerNotConfigured | ProviderNotConfigured | MultipartNotSupported | MetadataNotSupported

  /** The reason is true of that signer. */
  predicate Blames(needs: Needs, signer: Option<Signer>, why: Reason) {
    match why
    case SignerNotConfigured => signer.None?
    case ProviderNotConfigured => signer.None?
    case MultipartNotSupported => signer.Some? && needs.multipart && !signer.value.multipart
    case MetadataNotSupported => signer.Some? && needs.metadata && !signer.value.metadata
  }

  /** A signer that fits cannot be blamed for anything. */
  lemma BlamedIsUnfit(needs: Needs, signer: Option<Signer>, why: Reason)
    requires Blames(needs, signer, why)
    ensures !Fit(needs, signer)
  {
  }

  method CheckSigner(needs: Needs, signer: Signer) returns (why: Option<Reason>)
    ensures why.None? <==> Fit(needs, Some(signer))
    ensures why.Some? ==> Blames(needs, Some(signer), why.value)
  {
    if needs.multipart && !signer.multipart {
      return Some(MultipartNotSupported);
    }
    if needs.metadata && !signer.metadata {
      return Some(MetadataNotSupported);
    }
    return None;
  }

  /** The providers that the targets name. */
  function Named(targets: map<string, Target>): set<string> {
    if targets == map[] then {DEFAULT} else set name | name in targets :: targets[name].provider
  }

  method ProviderNames(targets: map<string, Target>) returns (names: set<string>)
    ensures names == Named(targets)
  {
    names := {};
    if targets == map[] {
      return {DEFAULT};
    }
    var rest := targets.Keys;
    while rest != {}
      invariant rest <= targets.Keys
      invariant names == set name | name in targets && name !in rest :: targets[name].provider
    {
      var name :| name in rest;
      names := names + {targets[name].provider};
      rest := rest - {name};
    }
  }

  method CheckProviders(needs: Needs, providers: Providers, names: set<string>) returns (why: Option<Reason>)
    ensures why.None? <==> forall name | name in names :: Fit(needs, SignerOf(providers, name))
    ensures why.Some? ==> why.value != SignerNotConfigured
                          && exists name :: name in names && Blames(needs, SignerOf(providers, name), why.value)
  {
    var rest := names;
    while rest != {}
      invariant rest <= names
      invariant forall name | name in names && name !in rest :: Fit(needs, SignerOf(providers, name))
    {
      var name :| name in rest;
      var signer := SignerOf(providers, name);
      if signer.None? {
        return Some(ProviderNotConfigured);
      }
      var bad := CheckSigner(needs, signer.value);
      if bad.Some? {
        return bad;
      }
      rest := rest - {name};
    }
    return None;
  }

  /** `validateStorageProvidersReady`. */
  method ValidateProvidersReady(cfg: Config) returns (why: Option<Reason>)
    ensures why.None? <==> ProvidersReady(cfg)
    ensures why.Some? && cfg.providers == map[] ==> Blames(NeedsOf(cfg), cfg.signer, why.value)
    ensures why.Some? && cfg.providers != map[] ==>
              && why.value != SignerNotConfigured
              && exists name :: name in Named(cfg.targets)
                                && Blames(NeedsOf(cfg), SignerOf(cfg.providers, name), why.value)
  {
    var needs := NeedsOf(cfg);
    if cfg.providers == map[] {
      if cfg.signer.None? {
        return Some(SignerNotConfigured);
      }
      why := CheckSigner(needs, cfg.signer.value);
      return;
    }
    var names := ProviderNames(cfg.targets);
    why := CheckProviders(needs, cfg.providers, names);
    if cfg.targets != map[] {
      assert forall name | name in cfg.targets :: cfg.targets[name].provider in names;
    }
  }

  // ---- Requests ----

  datatype Part = Part(number: int, etag: string)

  /** The routes of the storage role, with the fields that only they read. */
  datatype Route =
    | PostUpload
    | IntendUpload
    | GetDownload
    | IntendDownload
    | PostPresign(operation: string)
    | InitiateUpload
    | PresignPart(uploadId: string, number: int)
    | CompleteUpload(uploadId: string, parts: seq<Part>)
    | AbortUpload(uploadId: string)
    | GetMetadata
    | GetReference
    | IntendVerify(size: Option<int>, checksums: map<string, string>)

  function CapabilityOf(route: Route): Capability {
    match route
    case PostUpload => Upload
    case IntendUpload => Upload
    case GetDownload => Download
    case IntendDownload => Download
    case PostPresign(_) => Presign
    case GetMetadata => Metadata
    case GetReference => Metadata
    case IntendVerify(_, _) => Metadata
    case _ => Multipart
  }

  const PUTS := {"put", "upload"}
  const GETS := {"get", "download"}

  /** Routes that authorize a write. */
  predicate Writes(fold: char -> char, route: Route) {
    if route.PostPresign? then Name(fold, route.operation) in PUTS
    else CapabilityOf(route).Upload? || CapabilityOf(route).Multipart?
  }

  /** The action a route asks the policy about. */
  function ActionOf(fold: char -> char, route: Route): string {
    if route.PostPresign? then (if Writes(fold, route) then "storage.upload" else "storage.download")
    else
      match CapabilityOf(route)
      case Upload => "storage.upload"
      case Download => "storage.download"
      case Multipart => "storage.multipart"
      case _ => "storage.metadata"
  }

  const MOST_PARTS := 10000

  predicate GoodPart(p: Part) { 1 <= p.number <= MOST_PARTS && TrimSpace(p.etag) != "" }

  predicate GoodUpTo(parts: seq<Part>, n: nat)
    requires n <= |parts|
  {
    && (forall i | 0 <= i < n :: GoodPart(parts[i]))
    && (forall i, j | 0 <= i < j < n :: parts[i].number != parts[j].number)
  }

  predicate GoodParts(parts: seq<Part>) { 1 <= |parts| <= MOST_PARTS && GoodUpTo(parts, |parts|) }

  function WithTrimmedTag(p: Part): Part { Part(p.number, TrimSpace(p.etag)) }

  /** The numbers of the first parts, with where they occur. */
  predicate Occur(parts: seq<Part>, i: nat, at: map<int, nat>) {
    && (forall n | n in at :: at[n] < i <= |parts| && parts[at[n]].number == n)
    && (forall k | 0 <= k < i <= |parts| :: parts[k].number in at)
  }

  /** What the next part decides. */
  lemma NextPart(parts: seq<Part>, i: nat, at: map<int, nat>)
    requires i < |parts| && GoodUpTo(parts, i) && Occur(parts, i, at)
    ensures if GoodPart(parts[i]) && parts[i].number !in at
            then GoodUpTo(parts, i + 1) && Occur(parts, i + 1, at[parts[i].number := i])
            else !GoodUpTo(parts, |parts|)
  {
  }

  /** `validateCompletedParts`: accepts exactly the good lists, and trims their tags. */
  method ValidateParts(parts: seq<Part>) returns (out: Option<seq<Part>>)
    ensures out.Some? <==> GoodParts(parts)
    ensures out.Some? ==> out.value == seq(|parts|, i requires 0 <= i < |parts| => WithTrimmedTag(parts[i]))
  {
    if |parts| == 0 || |parts| > MOST_PARTS {
      return None;
    }
    var seen: set<int>, trimmed: seq<Part> := {}, [];
    ghost var at: map<int, nat> := map[];
    for i := 0 to |parts|
      invariant seen == at.Keys && Occur(parts, i, at)
      invariant GoodUpTo(parts, i)
      invariant trimmed == seq(i, k requires 0 <= k < i => WithTrimmedTag(parts[k]))
    {
      NextPart(parts, i, at);
      var p := parts[i];
      if p.number < 1 || p.number > MOST_PARTS || TrimSpace(p.etag) == "" {
        return None;
      }
      if p.number in seen {
        return None;
      }
      seen, at := seen + {p.number}, at[p.number := i];
      trimmed := trimmed + [WithTrimmedTag(p)];
    }
    return Some(trimmed);
  }

  /** The checks of a route on its own fields, each a 400 when it fails.  The intents check the
      object key as well, and less strictly than `validateStorageRequest`. */
  predicate InOrder(fold: char -> char, route: Route, in_: Request) {
    match route
    case IntendUpload => TrimSpace(in_.target) != ""
    case IntendDownload => TrimSpace(in_.target) != ""
    case IntendVerify(size, checksums) =>
      && TrimSpace(in_.target) != "" && (size.Some? ==> size.value >= 0)
      && forall k | k in checksums :: TrimSpace(k) != "" && TrimSpace(checksums[k]) != ""
    case PostPresign(operation) => Name(fold, operation) in PUTS + GETS
    case PresignPart(id, number) => TrimSpace(id) != "" && 1 <= number <= MOST_PARTS
    case CompleteUpload(id, parts) => TrimSpace(id) != "" && GoodParts(parts)
    case AbortUpload(id) => TrimSpace(id) != ""
    case _ => true
  }

  /** Some routes pass on the target name as it came, the others trimmed. */
  function NameFor(route: Route, in_: Request): string {
    if route.PostPresign? || route.IntendVerify? || CapabilityOf(route).Multipart? then in_.target
    else TrimSpace(in_.target)
  }

  /** What a storage route does with a request up to the provider: refuse it as malformed,
      refuse it as unauthorized, answer 503, or call the signer. */
  datatype Outcome = Malformed | Forbidden | Unavailable | Calls(signer: Signer, request: Presigned)

  function Routed(request: Option<Presigned>, ok: bool, decision: Decision, signer: Option<Signer>, cap: Capability)
    : Outcome
  {
    if request.None? || !ok then Malformed
    else
      match decision
      case Broken => Unavailable
      case Refused => Forbidden
      case Granted => if Supports(signer, cap) then Calls(signer.value, request.value) else Unavailable
  }

  function Handle(cfg: Config, fold: char -> char, route: Route, in_: Request, who: Caller): Outcome {
    var name := NameFor(route, in_);
    Routed(Validated(cfg, in_), InOrder(fold, route, in_),
           Authorized(cfg, name, ActionOf(fold, route), Writes(fold, route), who), SignerForTarget(cfg, name),
           CapabilityOf(route))
  }

  predicate Enabled(cfg: Config, cap: Capability) {
    STORAGE in cfg.selection.roles && Lists(cfg, cap)
  }

  lemma SameKey(route: Route, in_: Request)
    ensures var name := NameFor(route, in_); TrimSpace(TrimSpace(name)) == TrimSpace(name) == TrimSpace(in_.target)
  {
    TrimSpaceFixes(in_.target);
  }

  lemma FitSupports(cfg: Config, signer: Option<Signer>, cap: Capability)
    requires Fit(NeedsOf(cfg), signer) && Lists(cfg, cap)
    ensures Supports(signer, cap)
  {
  }

  /** Once ready, an accepted request on an enabled route finds a signer for its capability. */
  lemma ReadyFindsASigner(cfg: Config, route: Route, in_: Request)
    requires Ready(cfg) && Enabled(cfg, CapabilityOf(route)) && Validated(cfg, in_).Some?
    ensures Supports(SignerForTarget(cfg, NameFor(route, in_)), CapabilityOf(route))
  {
    SameKey(route, in_);
    assert ProviderRequired(cfg);
    FitSupports(cfg, SignerForTarget(cfg, NameFor(route, in_)), CapabilityOf(route));
  }

  /** What remains of `Broken` once an instance is ready. */
  lemma ReadyIsBrokenIff(cfg: Config, cap: Capability, name: string, action: string, write: bool, who: Caller,
                         key: string)
    requires Ready(cfg) && Enabled(cfg, cap) && TrimSpace(TrimSpace(name)) == TrimSpace(name) == key
    ensures Authorized(cfg, name, action, write, who) == Broken
            <==> && key in cfg.targets && !(write && cfg.targets[key].readOnly)
                 && who.identified && who.policy(key, action).Fails?
  {
  }

  /** A ready instance answers 503 before the provider is called exactly when an accepted
      request with the route's own fields in order, of an identified caller, for a target it
      may use that way, meets a policy that fails. */
  lemma ReadyIsUnavailableIff(cfg: Config, fold: char -> char, route: Route, in_: Request, who: Caller, key: string)
    requires Ready(cfg) && Enabled(cfg, CapabilityOf(route)) && key == TrimSpace(in_.target)
    ensures Handle(cfg, fold, route, in_, who) == Unavailable
            <==> && Validated(cfg, in_).Some? && InOrder(fold, route, in_)
                 && key in cfg.targets && !(Writes(fold, route) && cfg.targets[key].readOnly)
                 && who.identified && who.policy(key, ActionOf(fold, route)).Fails?
  {
    SameKey(route, in_);
    ReadyIsBrokenIff(cfg, CapabilityOf(route), NameFor(route, in_), ActionOf(fold, route), Writes(fold, route), who,
                     key);
    var request := Validated(cfg, in_);
    if request.Some? {
      ReadyFindsASigner(cfg, route, in_);
    }
  }

  lemma BucketOfTarget(cfg: Config, in_: Request)
    requires cfg.targets != map[] && Validated(cfg, in_).Some?
    ensures var key := TrimSpace(in_.target);
            key in cfg.targets && Validated(cfg, in_).value.bucket == cfg.targets[key].bucket
  {
    TrimSpaceFixes(in_.target);
  }

  lemma GrantedTarget(cfg: Config, name: string, action: string, write: bool, who: Caller, key: string)
    requires cfg.targets != map[] && Authorized(cfg, name, action, write, who) == Granted
    requires TrimSpace(TrimSpace(name)) == TrimSpace(name) == key
    ensures key in cfg.targets && !(write && cfg.targets[key].readOnly)
    ensures who.identified && who.policy(key, action).Allow?
  {
  }

  lemma SignerOfTarget(cfg: Config, name: string, key: string)
    requires key in cfg.targets && TrimSpace(TrimSpace(name)) == TrimSpace(name) == key
    ensures SignerForTarget(cfg, name)
            == if cfg.providers == map[] then cfg.signer else SignerOf(cfg.providers, cfg.targets[key].provider)
  {
  }

  lemma RoutedCalls(request: Option<Presigned>, ok: bool, decision: Decision, signer: Option<Signer>, cap: Capability)
    requires Routed(request, ok, decision, signer, cap).Calls?
    ensures ok && decision == Granted && request.Some? && signer.Some?
    ensures Routed(request, ok, decision, signer, cap) == Calls(signer.value, request.value)
  {
  }

  /** In target mode the bucket used, the target authorized and the provider called come from
      one registry entry. */
  lemma OneEntryServes(cfg: Config, fold: char -> char, route: Route, in_: Request, who: Caller,
                       signer: Signer, request: Presigned, key: string)
    requires cfg.targets != map[] && key == TrimSpace(in_.target)
    requires Handle(cfg, fold, route, in_, who) == Calls(signer, request)
    ensures key in cfg.targets && request.bucket == cfg.targets[key].bucket
    ensures who.identified && who.policy(key, ActionOf(fold, route)).Allow?
    ensures !(Writes(fold, route) && cfg.targets[key].readOnly)
    ensures Some(signer)
            == if cfg.providers == map[] then cfg.signer else SignerOf(cfg.providers, cfg.targets[key].provider)
  {
    var name, action, write := NameFor(route, in_), ActionOf(fold, route), Writes(fold, route);
    SameKey(route, in_);
    RoutedCalls(Validated(cfg, in_), InOrder(fold, route, in_), Authorized(cfg, name, action, write, who),
                SignerForTarget(cfg, name), CapabilityOf(route));
    BucketOfTarget(cfg, in_);
    GrantedTarget(cfg, name, action, write, who, key);
    SignerOfTarget(cfg, name, key);
  }

  // ---- Readiness asks for no more than that ----

  lemma UnfitFails(cfg: Config, signer: Option<Signer>) returns (cap: Capability)
    requires ProviderRequired(cfg) && !Fit(NeedsOf(cfg), signer)
    ensures Lists(cfg, cap) && !Supports(signer, cap)
  {
    if signer.None? {
      cap :| Lists(cfg, cap);
    } else if Lists(cfg, Multipart) && !signer.value.multipart {
      cap := Multipart;
    } else {
      cap := Metadata;
    }
  }

  /** A request for target t, or for a bucket when there are no targets. */
  function Plainest(t: string, seconds: int): Request { Request(t, "b", "k", "", seconds) }

  lemma PlainestHasABucket(cfg: Config, t: string, seconds: int)
    requires cfg.targets != map[] ==> Nameable(t) && t in cfg.targets
    ensures BucketFor(cfg, Plainest(t, seconds)).Some?
  {
    TrimSpaceFixes(t);
    TrimSpaceFixes("b");
  }

  lemma KIsAKey()
    ensures TrimSpace("k") == "k" && GoodKey("k")
  {
    TrimSpaceFixes("k");
  }

  lemma PlainestIsAccepted(cfg: Config, t: string, seconds: int)
    requires Acceptable(cfg, seconds)
    requires cfg.targets != map[] ==> Nameable(t) && t in cfg.targets
    ensures Validated(cfg, Plainest(t, seconds)).Some?
  {
    PlainestHasABucket(cfg, t, seconds);
    KIsAKey();
  }

  /** Names are trimmed before they are looked up, so only trimmed entries can be named. */
  predicate Nameable(name: string) { Trimmed(name) && name != "" }

  /** The signer behind an entry of the target registry. */
  function SignerBehind(cfg: Config, name: string): Option<Signer>
    requires name in cfg.targets
  {
    if cfg.providers == map[] then cfg.signer else SignerOf(cfg.providers, cfg.targets[name].provider)
  }

  /** Every signer that a request can reach fits. */
  predicate ReachableFit(cfg: Config) {
    if cfg.targets == map[] then Fit(NeedsOf(cfg), SignerForTarget(cfg, ""))
    else forall name | name in cfg.targets && Nameable(name) :: Fit(NeedsOf(cfg), SignerBehind(cfg, name))
  }

  /** The entries that no request can name fit too. */
  predicate UnnameableFit(cfg: Config) {
    forall name | name in cfg.targets && !Nameable(name) :: Fit(NeedsOf(cfg), SignerBehind(cfg, name))
  }

  /** Every accepted request on every enabled route finds a signer for its capability. */
  ghost predicate AllServed(cfg: Config, fold: char -> char) {
    forall route, in_ | Enabled(cfg, CapabilityOf(route)) && Validated(cfg, in_).Some? && InOrder(fold, route, in_) ::
      Supports(SignerForTarget(cfg, NameFor(route, in_)), CapabilityOf(route))
  }

  lemma KeyIsNameable(cfg: Config, route: Route, in_: Request, key: string)
    requires cfg.targets != map[] && Validated(cfg, in_).Some? && key == TrimSpace(in_.target)
    ensures key in cfg.targets && Nameable(key) && SignerForTarget(cfg, NameFor(route, in_)) == SignerBehind(cfg, key)
  {
    BucketOfTarget(cfg, in_);
    SameKey(route, in_);
    var before, after := TrimSpaceMeans(in_.target);
    SignerOfTarget(cfg, NameFor(route, in_), key);
  }

  lemma FitServes(cfg: Config, route: Route, in_: Request)
    requires ReachableFit(cfg) && Enabled(cfg, CapabilityOf(route)) && Validated(cfg, in_).Some?
    ensures Supports(SignerForTarget(cfg, NameFor(route, in_)), CapabilityOf(route))
  {
    if cfg.targets != map[] {
      KeyIsNameable(cfg, route, in_, TrimSpace(in_.target));
    }
    FitSupports(cfg, SignerForTarget(cfg, NameFor(route, in_)), CapabilityOf(route));
  }

  /** A route of each capability that asks for nothing else, or for "put". */
  function PlainRoute(cap: Capability): Route {
    match cap
    case Upload => PostUpload
    case Download => GetDownload
    case Presign => PostPresign("put")
    case Multipart => InitiateUpload
    case Metadata => GetMetadata
  }

  lemma PlainRouteIsInOrder(fold: char -> char, cap: Capability, in_: Request)
    ensures CapabilityOf(PlainRoute(cap)) == cap && InOrder(fold, PlainRoute(cap), in_)
  {
    PlainIsItsName(fold, "put");
  }

  lemma UnfitIsFelt(cfg: Config, seconds: int) returns (cap: Capability, t: string)
    requires STORAGE in cfg.selection.roles && ProviderRequired(cfg) && !ReachableFit(cfg)
    requires Acceptable(cfg, seconds)
    ensures Enabled(cfg, cap) && Validated(cfg, Plainest(t, seconds)).Some?
    ensures !Supports(SignerForTarget(cfg, NameFor(PlainRoute(cap), Plainest(t, seconds))), cap)
  {
    t := "";
    if cfg.targets == map[] {
      PlainestIsAccepted(cfg, t, seconds);
      cap := UnfitFails(cfg, SignerForTarget(cfg, t));
    } else {
      t :| t in cfg.targets && Nameable(t) && !Fit(NeedsOf(cfg), SignerBehind(cfg, t));
      PlainestIsAccepted(cfg, t, seconds);
      cap := UnfitFails(cfg, SignerBehind(cfg, t));
      TrimSpaceFixes(t);
      KeyIsNameable(cfg, PlainRoute(cap), Plainest(t, seconds), t);
    }
  }

  /** Some request is acceptable for its lifetime: the default one, or one that is asked for.
      Seconds wrap around in 64 bits, where they reach every multiple of 512 nanoseconds. */
  predicate SomeLifetime(cfg: Config) { DefaultTtl(cfg) <= MaxTtl(cfg) || 512 <= MaxTtl(cfg) }

  /** So many seconds wrap around to 512 nanoseconds. */
  const SHORTEST := 20211507185753197

  lemma WrapsToMultiples(seconds: int)
    ensures Wrap(seconds * SECOND) % 512 == 0
  {
    var x := seconds * SECOND + 0x8000_0000_0000_0000;
    var q := x / 0x1_0000_0000_0000_0000;
    assert Wrap(seconds * SECOND) == seconds * SECOND - q * 0x1_0000_0000_0000_0000;
    assert Wrap(seconds * SECOND) == 512 * (seconds * 1953125 - q * 0x80_0000_0000_0000);
  }

  lemma ShortestWraps()
    ensures Wrap(SHORTEST * SECOND) == 512
  {
  }

  lemma AcceptableLifetime(cfg: Config, seconds: int)
    requires Acceptable(cfg, seconds)
    ensures SomeLifetime(cfg)
  {
    WrapsToMultiples(seconds);
  }

  lemma AskForLifetime(cfg: Config) returns (seconds: int)
    requires SomeLifetime(cfg)
    ensures Acceptable(cfg, seconds)
  {
    ShortestWraps();
    seconds := if DefaultTtl(cfg) <= MaxTtl(cfg) then 0 else SHORTEST;
  }

  lemma SomeLifetimeMeans(cfg: Config)
    ensures SomeLifetime(cfg) <==> exists seconds :: Acceptable(cfg, seconds)
  {
    if SomeLifetime(cfg) {
      var seconds := AskForLifetime(cfg);
    }
    if seconds :| Acceptable(cfg, seconds) {
      AcceptableLifetime(cfg, seconds);
    }
  }

  /** Every accepted request on every enabled route finds a signer for its capability, exactly
      when no route is enabled, no lifetime is acceptable, or every signer that a request can
      reach fits. */
  lemma ServedIff(cfg: Config, fold: char -> char)
    ensures AllServed(cfg, fold)
            <==> !(STORAGE in cfg.selection.roles && ProviderRequired(cfg)) || !SomeLifetime(cfg) || ReachableFit(cfg)
  {
    if STORAGE in cfg.selection.roles && ProviderRequired(cfg) && SomeLifetime(cfg) {
      if ReachableFit(cfg) {
        forall route, in_ | Enabled(cfg, CapabilityOf(route)) && Validated(cfg, in_).Some?
          ensures Supports(SignerForTarget(cfg, NameFor(route, in_)), CapabilityOf(route))
        {
          FitServes(cfg, route, in_);
        }
      } else {
        var seconds := AskForLifetime(cfg);
        var cap, t := UnfitIsFelt(cfg, seconds);
        PlainRouteIsInOrder(fold, cap, Plainest(t, seconds));
        assert Enabled(cfg, CapabilityOf(PlainRoute(cap))) && Validated(cfg, Plainest(t, seconds)).Some?;
      }
    } else if !SomeLifetime(cfg) {
      forall in_ ensures Validated(cfg, in_).None? {
        if Validated(cfg, in_).Some? {
          AcceptableLifetime(cfg, in_.expiresInSeconds);
        }
      }
    }
  }

  lemma ProvidersReadyIff(cfg: Config)
    ensures ProvidersReady(cfg) <==> ReachableFit(cfg) && UnnameableFit(cfg)
  {
    if cfg.targets != map[] {
      var any :| any in cfg.targets;
      assert ProvidersReady(cfg) <==> forall name | name in cfg.targets :: Fit(NeedsOf(cfg), SignerBehind(cfg, name));
    }
  }

  /** Where routes are enabled and lifetimes acceptable, the readiness check is that every
      accepted request is served, and one thing more: entries that no request can name must fit
      as well. */
  lemma ReadinessIsExact(cfg: Config, fold: char -> char)
    ensures ProvidersReady(cfg) <==> ReachableFit(cfg) && UnnameableFit(cfg)
    ensures STORAGE in cfg.selection.roles && ProviderRequired(cfg) && SomeLifetime(cfg) ==>
              (ProvidersReady(cfg) <==> AllServed(cfg, fold) && UnnameableFit(cfg))
  {
    ServedIff(cfg, fold);
    ProvidersReadyIff(cfg);
  }

  // ---- Where readiness and service part ----

  const ONLY_DOWNLOAD := Selection([STORAGE], map[STORAGE := ["download"]])
  const SIGNER := Signer("s", false, false)

  /** An instance with one target behind the plain signer, and an access policy. */
  const ONE_TARGET := Config(ONLY_DOWNLOAD, Some(SIGNER), map[], map["t" := Target("p", "b", false)], 0, 0, true, false,
                             false)

  lemma OnlyDownload(cfg: Config)
    requires cfg.selection == ONLY_DOWNLOAD
    ensures Lists(cfg, Download) && !Lists(cfg, Multipart) && !Lists(cfg, Metadata)
  {
    var caps := ["download"];
    assert caps[0] == Download.Name();
    assert |Multipart.Name()| == 9 && |Metadata.Name()| == 8;
    assert forall x | x in caps :: x == Download.Name();
    assert Multipart.Name()[0] == 'm' && Metadata.Name()[0] == 'm' && Download.Name()[0] == 'd';
  }

  /** Ready, and yet a download is answered with 503 when the policy fails. */
  lemma ReadyYetUnavailable(fold: char -> char, who: Caller)
    requires who.identified && who.policy("t", "storage.download").Fails?
    ensures Ready(ONE_TARGET) && Enabled(ONE_TARGET, Download)
    ensures Handle(ONE_TARGET, fold, GetDownload, Plainest("t", 0), who) == Unavailable
  {
    OnlyDownload(ONE_TARGET);
    TrimSpaceFixes("t");
    assert "t" in ONE_TARGET.targets;
    PlainestIsAccepted(ONE_TARGET, "t", 0);
    ReadyIsUnavailableIff(ONE_TARGET, fold, GetDownload, Plainest("t", 0), who, "t");
  }

  const SPACED_NAME := " a "
  const PLAIN_NAME := "a"

  /** What the target parser makes of one entry under the name " a " without a provider: the
      entry as it came, and a trimmed copy with the default provider. */
  predicate Spaced(cfg: Config) {
    && cfg.selection == ONLY_DOWNLOAD && cfg.providers == map[DEFAULT := Some(SIGNER)]
    && cfg.targets == map[SPACED_NAME := Target("", "b", false), PLAIN_NAME := Target(DEFAULT, "b", false)]
    && cfg.defaultTtl == 0 && cfg.maxTtl == 0
  }

  lemma SpacedNames()
    ensures !Nameable(SPACED_NAME) && SPACED_NAME != PLAIN_NAME && DEFAULT != ""
    ensures TrimSpace(DEFAULT) == DEFAULT && TrimSpace("") == ""
  {
    assert IsSpace(SPACED_NAME[0]) && !IsSpace(PLAIN_NAME[0]);
    TrimSpaceFixes(DEFAULT);
    TrimSpaceFixes("");
  }

  lemma SpacedSigners(cfg: Config)
    requires Spaced(cfg)
    ensures SignerBehind(cfg, SPACED_NAME).None? && SignerBehind(cfg, PLAIN_NAME) == Some(SIGNER)
  {
    SpacedNames();
    assert cfg.targets[SPACED_NAME].provider == "" && cfg.targets[PLAIN_NAME].provider == DEFAULT;
    assert DEFAULT in cfg.providers && cfg.providers[DEFAULT] == Some(SIGNER);
  }

  /** Every accepted request is served, and yet the instance is not ready. */
  lemma ServedYetUnready(cfg: Config, fold: char -> char)
    requires Spaced(cfg)
    ensures AllServed(cfg, fold) && STORAGE in cfg.selection.roles && ProviderRequired(cfg) && !ProvidersReady(cfg)
  {
    OnlyDownload(cfg);
    SpacedNames();
    SpacedSigners(cfg);
    assert SPACED_NAME in cfg.targets;
    ServedIff(cfg, fold);
    ReadinessIsExact(cfg, fold);
  }

  // ---- Lifetimes ----

  const TOO_BIG := 0x8000_0000_0000_0000

  lemma WrapsWhenTooBig(seconds: int)
    requires 0 < seconds < TOO_BIG
    ensures Wrap(seconds * SECOND) == seconds * SECOND <==> seconds * SECOND < TOO_BIG
  {
  }

  /** An accepted lifetime is positive and within the maximum.  It is the one asked for exactly
      when that many seconds fit 64 bits as nanoseconds. */
  lemma LifetimeIsBounded(cfg: Config, in_: Request, request: Presigned)
    requires -TOO_BIG <= in_.expiresInSeconds < TOO_BIG && Validated(cfg, in_) == Some(request)
    ensures 0 < request.expiresIn <= MaxTtl(cfg)
    ensures in_.expiresInSeconds > 0 ==>
              (request.expiresIn == in_.expiresInSeconds * SECOND <==> in_.expiresInSeconds * SECOND < TOO_BIG)
  {
    if in_.expiresInSeconds > 0 {
      WrapsWhenTooBig(in_.expiresInSeconds);
    }
  }

  /** 2^55 + 1 seconds wrap around to one second, and are accepted. */
  lemma LongLifetimeIsAccepted(cfg: Config, asked: Request)
    requires cfg.targets == map[] && SECOND <= MaxTtl(cfg)
    requires asked == Plainest("", 36028797018963969)
    ensures Validated(cfg, asked) == Some(Presigned("b", "k", "", SECOND))
  {
    TrimSpaceFixes("b");
    KIsAKey();
  }
}
