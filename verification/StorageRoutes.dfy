/** The routes of the storage role one by one: what each accepts, which of them write, what each
    asks the access policy, and which provider it needs.  Validation, authorization and the
    readiness check are also given as the source runs them. */
module StorageRoutes {
  import opened Base
  import opened Text
  import opened RuntimeConfig
  import opened StorageReady

  // ---- The checks as the source runs them ----

  method ContainsDots(key: string) returns (found: bool)
    ensures found <==> HasDots(key)
  {
    for i := 0 to |key|
      invariant forall k | 0 <= k < i && k < |key| - 1 :: !(key[k] == '.' && key[k + 1] == '.')
    {
      if i + 1 < |key| && key[i] == '.' && key[i + 1] == '.' {
        return true;
      }
    }
    return false;
  }

  /** `validateStorageRequest`. */
  method ValidateRequest(cfg: Config, in_: Request) returns (out: Option<Presigned>)
    ensures out == Validated(cfg, in_)
  {
    var targetName, bucket := TrimSpace(in_.target), TrimSpace(in_.bucket);
    if cfg.targets != map[] {
      if targetName == "" {
        return None;
      }
      var target := Resolve(cfg.targets, targetName);
      if target.None? {
        return None;
      }
      bucket := target.value.bucket;
    } else if bucket == "" {
      return None;
    }
    var key := TrimSpace(in_.objectKey);
    if key == "" {
      return None;
    }
    var dots := ContainsDots(key);
    if key[0] == '/' || dots || '\\' in key {
      return None;
    }
    var ttl := cfg.defaultTtl;
    if ttl <= 0 {
      ttl := 15 * MINUTE;
    }
    if in_.expiresInSeconds > 0 {
      ttl := Wrap(in_.expiresInSeconds * SECOND);
    }
    var maxTtl := cfg.maxTtl;
    if maxTtl <= 0 {
      maxTtl := 60 * MINUTE;
    }
    if ttl <= 0 || ttl > maxTtl {
      return None;
    }
    return Some(Presigned(bucket, key, TrimSpace(in_.contentType), ttl));
  }

  /** `authorizeStorage`. */
  method Authorize(cfg: Config, name: string, action: string, write: bool, who: Caller) returns (d: Decision)
    ensures d == Authorized(cfg, name, action, write, who)
  {
    if cfg.targets == map[] {
      return Granted;
    }
    var targetName := TrimSpace(name);
    var target := Resolve(cfg.targets, targetName);
    if target.None? {
      return Refused;
    }
    if write && target.value.readOnly {
      return Refused;
    }
    if !cfg.policy {
      return Broken;
    }
    if !cfg.verifier && cfg.authRequired {
      return Broken;
    }
    if !who.identified {
      return Refused;
    }
    var answer := who.policy(targetName, action);
    if answer.Fails? {
      return Broken;
    }
    return if answer.Allow? then Granted else Refused;
  }

  /** `storageProviderRequired`. */
  method RequiresProvider(caps: seq<string>) returns (required: bool)
    ensures required <==> exists cap: Capability :: cap.Name() in caps
  {
    for i := 0 to |caps|
      invariant forall cap: Capability :: cap.Name() !in caps[..i]
    {
      var c := caps[i];
      if c == "upload" || c == "download" || c == "presign" || c == "multipart" || c == "metadata" {
        assert c == (if c == "upload" then Upload else if c == "download" then Download else if c == "presign"
                     then Presign else if c == "multipart" then Multipart else Metadata).Name();
        return true;
      }
      assert caps[..i + 1] == caps[..i] + [c];
    }
    assert caps[..|caps|] == caps;
    return false;
  }

  /** `GET /health/ready`. */
  method CheckReady(cfg: Config) returns (ready: bool)
    ensures ready <==> Ready(cfg)
  {
    if STORAGE !in cfg.selection.roles {
      return true;
    }
    if cfg.authRequired && !cfg.verifier {
      return false;
    }
    if cfg.targets != map[] && !cfg.policy {
      return false;
    }
    var caps := if STORAGE in cfg.selection.capabilities then cfg.selection.capabilities[STORAGE] else [];
    var required := RequiresProvider(caps);
    if required {
      ghost var cap: Capability :| cap.Name() in caps;
      assert Lists(cfg, cap);
      var why := ValidateProvidersReady(cfg);
      if why.Some? {
        return false;
      }
    }
    return true;
  }

  // ---- What is accepted ----

  /** An object key, once trimmed, that is not empty, does not start with a slash and contains
      neither two dots in a row nor a backslash. */
  predicate Harmless(key: string) {
    && |key| > 0 && key[0] != '/'
    && (forall i | 0 <= i < |key| :: key[i] != '\\')
    && (forall i | 1 <= i < |key| :: key[i - 1] != '.' || key[i] != '.')
  }

  /** The lifetime a request gets: the one asked for, or the default, or fifteen minutes. */
  function Lasting(cfg: Config, seconds: int): int {
    if seconds > 0 then Wrap(seconds * 1_000_000_000)
    else if cfg.defaultTtl > 0 then cfg.defaultTtl
    else 900_000_000_000
  }

  /** Exactly the requests are accepted that name a known target, or a bucket where there are no
      targets, with a harmless key and a positive lifetime of at most the maximum, or an hour; and
      the bucket is the target's. */
  lemma AcceptedIff(cfg: Config, in_: Request)
    ensures Validated(cfg, in_).Some?
            <==> && Harmless(TrimSpace(in_.objectKey))
                 && 0 < Lasting(cfg, in_.expiresInSeconds)
                      <= (if cfg.maxTtl > 0 then cfg.maxTtl else 3_600_000_000_000)
                 && (if cfg.targets == map[] then TrimSpace(in_.bucket) != ""
                     else TrimSpace(in_.target) != "" && TrimSpace(in_.target) in cfg.targets)
    ensures Validated(cfg, in_).Some? ==>
              var r := Validated(cfg, in_).value;
              && r.objectKey == TrimSpace(in_.objectKey) && r.contentType == TrimSpace(in_.contentType)
              && r.expiresIn == Lasting(cfg, in_.expiresInSeconds)
              && r.bucket == (if cfg.targets == map[] then TrimSpace(in_.bucket)
                              else cfg.targets[TrimSpace(in_.target)].bucket)
  {
    var key := TrimSpace(in_.objectKey);
    TrimSpaceFixes(in_.target);
    if HasDots(key) {
      var i :| 0 <= i < |key| - 1 && key[i] == '.' && key[i + 1] == '.';
      assert key[i + 1 - 1] == '.';
    }
    assert (forall i | 0 <= i < |key| :: key[i] != '\\') <==> '\\' !in key;
  }

  /** A product of seconds that does not fit 64 bits differs from the true one by a multiple of
      2^64, and one that fits is the true one. */
  lemma WrapMeans(x: int)
    ensures (Wrap(x) - x) % 0x1_0000_0000_0000_0000 == 0
    ensures -0x8000_0000_0000_0000 <= x < 0x8000_0000_0000_0000 ==> Wrap(x) == x
  {
    var y := x + 0x8000_0000_0000_0000;
    assert Wrap(x) - x == -(y / 0x1_0000_0000_0000_0000) * 0x1_0000_0000_0000_0000;
  }

  // ---- What each route does ----

  /** The routes that change what is stored. */
  predicate Changes(fold: char -> char, route: Route) {
    || route.PostUpload? || route.IntendUpload?
    || route.InitiateUpload? || route.PresignPart? || route.CompleteUpload? || route.AbortUpload?
    || (route.PostPresign? && (Name(fold, route.operation) == "put" || Name(fold, route.operation) == "upload"))
  }

  /** None of them gets through to a provider for a read-only target. */
  lemma ReadOnlyIsNotWritten(cfg: Config, fold: char -> char, route: Route, in_: Request, who: Caller)
    requires Changes(fold, route)
    requires var key := TrimSpace(in_.target); key in cfg.targets && cfg.targets[key].readOnly
    ensures Handle(cfg, fold, route, in_, who) == Malformed || Handle(cfg, fold, route, in_, who) == Outcome.Forbidden
  {
    SameKey(route, in_);
  }

  /** The same instance with other targets marked as read-only. */
  ghost predicate SameButMarks(a: Config, b: Config) {
    && b == a.(targets := b.targets) && b.targets.Keys == a.targets.Keys
    && forall k | k in a.targets :: b.targets[k] == a.targets[k].(readOnly := b.targets[k].readOnly)
  }

  /** And the other routes do not care: downloads, metadata, references, verification, and
      presigned downloads. */
  lemma ReadsIgnoreMarks(a: Config, b: Config, fold: char -> char, route: Route, in_: Request, who: Caller)
    requires SameButMarks(a, b) && !Changes(fold, route)
    ensures Handle(a, fold, route, in_, who) == Handle(b, fold, route, in_, who)
  {
    SameKey(route, in_);
    SameSigners(a, b, NameFor(route, in_));
    SameRequests(a, b, in_);
    assert a.targets == map[] <==> b.targets == map[] by {
      assert a.targets == map[] <==> a.targets.Keys == {};
      assert b.targets == map[] <==> b.targets.Keys == {};
    }
    assert !Writes(fold, route);
  }

  lemma SameSigners(a: Config, b: Config, name: string)
    requires SameButMarks(a, b)
    ensures SignerForTarget(a, name) == SignerForTarget(b, name)
  {
    assert a.targets == map[] <==> a.targets.Keys == {};
    assert b.targets == map[] <==> b.targets.Keys == {};
  }

  lemma SameRequests(a: Config, b: Config, in_: Request)
    requires SameButMarks(a, b)
    ensures Validated(a, in_) == Validated(b, in_)
  {
    assert a.targets == map[] <==> a.targets.Keys == {};
    assert b.targets == map[] <==> b.targets.Keys == {};
  }

  /** The name under which a route asks the policy. */
  predicate AsksFor(fold: char -> char, route: Route, action: string) {
    match route
    case PostUpload => action == "storage.upload"
    case IntendUpload => action == "storage.upload"
    case GetDownload => action == "storage.download"
    case IntendDownload => action == "storage.download"
    case PostPresign(operation) =>
      if Name(fold, operation) == "put" || Name(fold, operation) == "upload" then action == "storage.upload"
      else action == "storage.download"
    case InitiateUpload => action == "storage.multipart"
    case PresignPart(_, _) => action == "storage.multipart"
    case CompleteUpload(_, _) => action == "storage.multipart"
    case AbortUpload(_) => action == "storage.multipart"
    case GetMetadata => action == "storage.metadata"
    case GetReference => action == "storage.metadata"
    case IntendVerify(_, _) => action == "storage.metadata"
  }

  /** The interface beyond plain signing that a route needs. */
  predicate CanServe(signer: Signer, route: Route) {
    match route
    case InitiateUpload => signer.multipart
    case PresignPart(_, _) => signer.multipart
    case CompleteUpload(_, _) => signer.multipart
    case AbortUpload(_) => signer.multipart
    case GetMetadata => signer.metadata
    case GetReference => signer.metadata
    case IntendVerify(_, _) => signer.metadata
    case _ => true
  }

  /** In target mode a provider is called exactly when: the request is accepted and the route's own
      fields are in order; the target may be used that way; a policy is configured, and a verifier
      where one is required; the caller is identified and the policy allows the route's action on
      the target; and the provider of the target is there and can serve the route. */
  lemma CallsIff(cfg: Config, fold: char -> char, route: Route, in_: Request, who: Caller, action: string)
    requires cfg.targets != map[] && AsksFor(fold, route, action)
    ensures var key := TrimSpace(in_.target);
            Handle(cfg, fold, route, in_, who).Calls?
            <==> && Validated(cfg, in_).Some? && InOrder(fold, route, in_)
                 && key in cfg.targets && !(Changes(fold, route) && cfg.targets[key].readOnly)
                 && cfg.policy && (cfg.authRequired ==> cfg.verifier)
                 && who.identified && who.policy(key, action).Allow?
                 && SignerBehind(cfg, key).Some? && CanServe(SignerBehind(cfg, key).value, route)
    ensures Handle(cfg, fold, route, in_, who).Calls? ==>
              Handle(cfg, fold, route, in_, who)
              == Calls(SignerBehind(cfg, TrimSpace(in_.target)).value, Validated(cfg, in_).value)
  {
    var key, name := TrimSpace(in_.target), NameFor(route, in_);
    SameKey(route, in_);
    if key in cfg.targets {
      SignerOfTarget(cfg, name, key);
    } else {
      assert Validated(cfg, in_).None?;
    }
  }

  /** The provider behind a target: the one signer where no providers are registered, and otherwise
      the one registered under the trimmed name that the target gives. */
  lemma ProviderOfTarget(cfg: Config, key: string, signer: Signer)
    requires key in cfg.targets
    ensures SignerBehind(cfg, key) == Some(signer)
            <==> if cfg.providers == map[] then cfg.signer == Some(signer)
                 else var name := TrimSpace(cfg.targets[key].provider);
                      name in cfg.providers && cfg.providers[name] == Some(signer)
  {
  }

  lemma OpenSigner(cfg: Config, name: string, signer: Signer)
    requires cfg.targets == map[]
    ensures SignerForTarget(cfg, name) == Some(signer)
            <==> if cfg.providers == map[] then cfg.signer == Some(signer)
                 else "default" in cfg.providers && cfg.providers["default"] == Some(signer)
  {
    assert Trimmed("default");
    TrimSpaceFixes("default");
  }

  /** Without targets nobody is asked: every request that is accepted and in order reaches the one
      signer, or the provider "default", if that is there and can serve the route. */
  lemma OpenCallsIff(cfg: Config, fold: char -> char, route: Route, in_: Request, who: Caller, signer: Signer)
    requires cfg.targets == map[]
    ensures var outcome := Handle(cfg, fold, route, in_, who);
            outcome.Calls? && outcome.signer == signer
            <==> && Validated(cfg, in_).Some? && InOrder(fold, route, in_) && CanServe(signer, route)
                 && (if cfg.providers == map[] then cfg.signer == Some(signer)
                     else "default" in cfg.providers && cfg.providers["default"] == Some(signer))
  {
    OpenSigner(cfg, NameFor(route, in_), signer);
  }

  /** Which capability switches a route on. */
  lemma EnabledIff(cfg: Config, route: Route)
    ensures Enabled(cfg, CapabilityOf(route))
            <==> && STORAGE in cfg.selection.roles && STORAGE in cfg.selection.capabilities
                 && var listed := cfg.selection.capabilities[STORAGE];
                    if route.PostUpload? || route.IntendUpload? then "upload" in listed
                    else if route.GetDownload? || route.IntendDownload? then "download" in listed
                    else if route.PostPresign? then "presign" in listed
                    else if route.GetMetadata? || route.GetReference? || route.IntendVerify? then "metadata" in listed
                    else "multipart" in listed
  {
  }

  /** Fields that are out of order: an unknown operation, a blank upload id, a part number outside
      1 to 10000, a blank target of an intent, a negative size or a blank checksum. */
  lemma BadFieldsAreMalformed(cfg: Config, fold: char -> char, route: Route, in_: Request, who: Caller)
    requires || (route.PostPresign?
                 && Name(fold, route.operation) !in {"put", "upload", "get", "download"})
             || ((route.PresignPart? || route.CompleteUpload? || route.AbortUpload?) && TrimSpace(route.uploadId) == "")
             || (route.PresignPart? && (route.number < 1 || route.number > 10000))
             || (route.CompleteUpload? && (|route.parts| == 0 || |route.parts| > 10000))
             || ((route.IntendUpload? || route.IntendDownload? || route.IntendVerify?) && TrimSpace(in_.target) == "")
             || (route.IntendVerify? && route.size.Some? && route.size.value < 0)
             || (route.IntendVerify? && exists k :: k in route.checksums
                                                    && (TrimSpace(k) == "" || TrimSpace(route.checksums[k]) == ""))
    ensures Handle(cfg, fold, route, in_, who) == Malformed
  {
  }

  /** Any other route has nothing of its own to refuse. */
  lemma OtherFieldsAreInOrder(fold: char -> char, route: Route, in_: Request)
    requires TrimSpace(in_.target) != ""
    requires route.PostPresign? ==> Name(fold, route.operation) in {"put", "upload", "get", "download"}
    requires route.PresignPart? || route.CompleteUpload? || route.AbortUpload? ==> TrimSpace(route.uploadId) != ""
    requires route.PresignPart? ==> 1 <= route.number <= 10000
    requires route.CompleteUpload? ==>
               && 1 <= |route.parts| <= 10000
               && (forall i | 0 <= i < |route.parts| ::
                     1 <= route.parts[i].number <= 10000 && TrimSpace(route.parts[i].etag) != "")
               && (forall i, j | 0 <= i < j < |route.parts| :: route.parts[i].number != route.parts[j].number)
    requires route.IntendVerify? ==>
               && (route.size.Some? ==> 0 <= route.size.value)
               && forall k | k in route.checksums :: TrimSpace(k) != "" && TrimSpace(route.checksums[k]) != ""
    ensures InOrder(fold, route, in_)
  {
  }
}
