/** The runtime roles and their capabilities (internal/runtimecfg): what the parsers accept,
    what the validator accepts, and the text forms that parse back. */
module RuntimeConfig {
  import opened Base
  import opened Text

  const REBFF := "rebff"
  const STORAGE := "storage"
  const STREAMING := "streaming"
  const WEBSOCKET := "websocket"

  /** The package's tables: what each role may list, and what it lists by default. */
  datatype Catalog = Catalog(allowed: map<string, set<string>>, defaults: map<string, seq<string>>)

  const TABLES := Catalog(
    map[
      REBFF := {"oidc", "session", "token-refresh", "csrf", "user-context", "api-proxy", "coarse-authz", "audit",
                "trace-propagation"},
      STORAGE := {"upload", "download", "multipart", "presign", "metadata", "audit"},
      STREAMING := {"playback", "manifest", "token", "origin-select", "audit"},
      WEBSOCKET := {"connect", "publish", "subscribe", "presence", "heartbeat", "audit"}],
    map[
      REBFF := ["oidc", "session", "token-refresh", "csrf", "user-context", "api-proxy", "coarse-authz", "audit",
                "trace-propagation"],
      STORAGE := ["upload", "download", "multipart", "presign", "metadata", "audit"],
      STREAMING := ["playback", "manifest", "token", "origin-select", "audit"],
      WEBSOCKET := ["connect", "publish", "subscribe", "presence", "heartbeat", "audit"]])

  predicate Allows(cat: Catalog, role: string, cap: string) { role in cat.allowed && cap in cat.allowed[role] }

  function Default(cat: Catalog, role: string): seq<string> { if role in cat.defaults then cat.defaults[role] else [] }

  datatype Selection = Selection(roles: seq<string>, capabilities: map<string, seq<string>>)

  datatype Error =
    | NoRoles
    | UnsupportedRole(role: string)
    | DuplicateRole(role: string)
    | UnselectedRole(role: string)
    | NoCapability(role: string)
    | UnsupportedCapability(cap: string, role: string)
    | BadGroup

  // ---- Lists without repetitions ----

  predicate Unique(xs: seq<string>) {
    forall i, j | 0 <= i < j < |xs| :: xs[i] != xs[j]
  }

  /** The elements of `xs`, each where it first occurs. */
  function Distinct(xs: seq<string>): seq<string> {
    if xs == [] then []
    else
      var ys := Distinct(xs[..|xs| - 1]);
      if xs[|xs| - 1] in ys then ys else ys + [xs[|xs| - 1]]
  }

  predicate FirstAt(xs: seq<string>, x: string, i: int) { 0 <= i < |xs| && xs[i] == x && x !in xs[..i] }

  /** `Distinct` has the elements of `xs`, without repetitions. */
  lemma {:induction false} DistinctMeans(xs: seq<string>)
    ensures Unique(Distinct(xs))
    ensures forall x :: x in Distinct(xs) <==> x in xs
  {
    if xs == [] {
    } else {
      DistinctMeans(xs[..|xs| - 1]);
      assert xs == xs[..|xs| - 1] + [xs[|xs| - 1]];
    }
  }

  /** A first occurrence is in the front part, unless the element is only at the end. */
  lemma FirstInFront(front: seq<string>, last: string, x: string, i: int)
    requires FirstAt(front + [last], x, i)
    ensures x in front ==> FirstAt(front, x, i)
    ensures x !in front ==> i == |front|
  {
    var xs := front + [last];
    if i < |front| {
      assert front[i] == xs[i];
      assert front[..i] == xs[..i];
    } else {
      assert xs[..i] == front;
    }
  }

  /** `Distinct` orders the elements by their first occurrences. */
  lemma {:induction false} DistinctInOrder(xs: seq<string>, a: nat, b: nat, i: int, j: int)
    requires a < b < |Distinct(xs)| && FirstAt(xs, Distinct(xs)[a], i) && FirstAt(xs, Distinct(xs)[b], j)
    ensures i < j
    decreases |xs|
  {
    var n := |xs| - 1;
    var front, ys := xs[..n], Distinct(xs[..n]);
    assert xs == front + [xs[n]];
    DistinctMeans(front);
    FirstInFront(front, xs[n], Distinct(xs)[a], i);
    FirstInFront(front, xs[n], Distinct(xs)[b], j);
    if b == |ys| {
    } else {
      DistinctInOrder(front, a, b, i, j);
    }
  }

  lemma {:induction false} DistinctOfUnique(xs: seq<string>)
    requires Unique(xs)
    ensures Distinct(xs) == xs
  {
    if xs == [] {
    } else {
      DistinctOfUnique(xs[..|xs| - 1]);
    }
  }

  // ---- What the parsers compute ----

  /** A name as the parsers read it. */
  function Name(fold: char -> char, part: string): string { ToLower(fold, TrimSpace(part)) }

  function Names(fold: char -> char, raw: string, sep: char): (names: seq<string>)
    ensures |names| == |Split(raw, sep)|
  {
    var parts := Split(raw, sep);
    seq(|parts|, i requires 0 <= i < |parts| => Name(fold, parts[i]))
  }

  /** The first name that is not `ok`. */
  function FirstNot(names: seq<string>, ok: string -> bool): (r: Option<string>)
    ensures r.None? <==> forall i | 0 <= i < |names| :: ok(names[i])
  {
    if names == [] then None else if !ok(names[0]) then Some(names[0]) else FirstNot(names[1..], ok)
  }

  lemma {:induction false} FirstNotAfter(a: seq<string>, x: string, b: seq<string>, ok: string -> bool)
    requires FirstNot(a, ok).None? && !ok(x)
    ensures FirstNot(a + [x] + b, ok) == Some(x)
  {
    var all := a + [x] + b;
    if a == [] {
    } else {
      assert all[1..] == a[1..] + [x] + b;
      FirstNotAfter(a[1..], x, b, ok);
    }
  }

  function NonEmpty(names: seq<string>): (r: seq<string>)
    ensures forall x :: x in r <==> x in names && x != ""
  {
    if names == [] then []
    else
      var front, last := NonEmpty(names[..|names| - 1]), names[|names| - 1];
      if last == "" then front else front + [last]
  }

  lemma {:induction false} NonEmptyAppend(a: seq<string>, b: seq<string>)
    ensures NonEmpty(a + b) == NonEmpty(a) + NonEmpty(b)
  {
    if b == [] {
      assert a + b == a;
    } else {
      var front := b[..|b| - 1];
      assert (a + b)[..|a + b| - 1] == a + front;
      NonEmptyAppend(a, front);
    }
  }

  function IsRole(cat: Catalog): string -> bool { role => role in cat.allowed }

  function IsCapabilityOf(cat: Catalog, role: string): string -> bool { cap => Allows(cat, role, cap) }

  function RolesOf(cat: Catalog, fold: char -> char, raw: string): Result<seq<string>, Error> {
    if TrimSpace(raw) == "" then Ok([REBFF])
    else
      var names := Names(fold, raw, ',');
      var bad := FirstNot(names, IsRole(cat));
      if bad.Some? then Err(UnsupportedRole(bad.value)) else Ok(Distinct(names))
  }

  function CapsOf(cat: Catalog, fold: char -> char, role: string, raw: string): Result<seq<string>, Error> {
    var names := NonEmpty(Names(fold, raw, ','));
    var bad := FirstNot(names, IsCapabilityOf(cat, role));
    if bad.Some? then Err(UnsupportedCapability(bad.value, role))
    else if names == [] then Err(NoCapability(role))
    else Ok(Distinct(names))
  }

  /** One `role:capability|capability` group; blank groups set nothing. */
  datatype Setting = Nothing | Capabilities(role: string, caps: seq<string>)

  function GroupOf(cat: Catalog, fold: char -> char, roles: seq<string>, text: string): Result<Setting, Error> {
    var group := TrimSpace(text);
    if group == "" then Ok(Nothing)
    else
      var parts := Cut(group, ':');
      if parts.None? then Err(BadGroup)
      else
        var role := Name(fold, parts.value.0);
        if role !in roles then Err(UnselectedRole(role))
        else
          match CapsOf(cat, fold, role, Swap(parts.value.1, '|', ','))
          case Err(e) => Err(e)
          case Ok(caps) => Ok(Capabilities(role, caps))
  }

  function Set(m: map<string, seq<string>>, setting: Setting): map<string, seq<string>> {
    match setting
    case Nothing => m
    case Capabilities(role, caps) => m[role := caps]
  }

  /** The settings of all groups in turn, up to the first error. */
  function Collected(settings: seq<Result<Setting, Error>>): Result<map<string, seq<string>>, Error> {
    if settings == [] then Ok(map[])
    else
      var before, last := Collected(settings[..|settings| - 1]), settings[|settings| - 1];
      if before.Err? then before
      else if last.Err? then Err(last.error)
      else Ok(Set(before.value, last.value))
  }

  function GroupsOf(cat: Catalog, fold: char -> char, roles: seq<string>, groups: seq<string>)
    : (settings: seq<Result<Setting, Error>>)
    ensures |settings| == |groups|
    ensures forall i | 0 <= i < |groups| :: settings[i] == GroupOf(cat, fold, roles, groups[i])
  {
    seq(|groups|, i requires 0 <= i < |groups| => GroupOf(cat, fold, roles, groups[i]))
  }

  function FilledAt(cat: Catalog, m: map<string, seq<string>>, role: string): seq<string> {
    if role in m && m[role] != [] then m[role] else Default(cat, role)
  }

  function Filled(cat: Catalog, roles: seq<string>, m: map<string, seq<string>>): map<string, seq<string>> {
    map role | role in roles :: FilledAt(cat, m, role)
  }

  function CapabilitiesOf(cat: Catalog, fold: char -> char, roles: seq<string>, raw: string)
    : Result<map<string, seq<string>>, Error>
  {
    if TrimSpace(raw) == "" then Ok(Filled(cat, roles, map[]))
    else if |roles| == 1 && ':' !in raw then
      match CapsOf(cat, fold, roles[0], Swap(raw, '|', ','))
      case Err(e) => Err(e)
      case Ok(caps) => Ok(map[roles[0] := caps])
    else
      match Collected(GroupsOf(cat, fold, roles, Split(raw, ';')))
      case Err(e) => Err(e)
      case Ok(m) => Ok(Filled(cat, roles, m))
  }

  /** What `Validate` accepts. */
  predicate ValidCaps(cat: Catalog, role: string, caps: seq<string>) {
    caps != [] && forall i | 0 <= i < |caps| :: Allows(cat, role, caps[i])
  }

  predicate ValidSelection(cat: Catalog, sel: Selection) {
    && sel.roles != [] && Unique(sel.roles)
    && (forall i | 0 <= i < |sel.roles| :: sel.roles[i] in cat.allowed)
    && (forall role | role in sel.roles :: role in sel.capabilities && ValidCaps(cat, role, sel.capabilities[role]))
    && (forall role | role in sel.capabilities :: role in sel.roles)
  }

  /** The error is true of the selection. */
  predicate Explains(cat: Catalog, sel: Selection, e: Error) {
    match e
    case NoRoles => sel.roles == []
    case UnsupportedRole(role) => role in sel.roles && role !in cat.allowed
    case DuplicateRole(role) => exists i, j | 0 <= i < j < |sel.roles| :: sel.roles[i] == sel.roles[j] == role
    case UnselectedRole(role) => role in sel.capabilities && role !in sel.roles
    case NoCapability(role) => role in sel.roles && (role in sel.capabilities ==> sel.capabilities[role] == [])
    case UnsupportedCapability(cap, role) =>
      role in sel.roles && role in sel.capabilities && cap in sel.capabilities[role] && !Allows(cat, role, cap)
    case BadGroup => false
  }

  /** Whatever an error may say of a selection, a valid one has none of it. */
  lemma ExplainedIsInvalid(cat: Catalog, sel: Selection, e: Error)
    requires Explains(cat, sel, e)
    ensures !ValidSelection(cat, sel)
  {
  }

  lemma DistinctKeeps(names: seq<string>, ok: string -> bool)
    requires names != [] && FirstNot(names, ok).None?
    ensures Distinct(names) != [] && Unique(Distinct(names))
    ensures forall i | 0 <= i < |Distinct(names)| :: ok(Distinct(names)[i])
  {
    DistinctMeans(names);
    assert names[0] in Distinct(names);
    forall i | 0 <= i < |Distinct(names)| ensures ok(Distinct(names)[i]) {
      assert Distinct(names)[i] in names;
    }
  }

  /** What an accepted list is. */
  lemma CapsOfMeans(cat: Catalog, fold: char -> char, role: string, raw: string)
    ensures var r := CapsOf(cat, fold, role, raw);
            r.Ok? ==> ValidCaps(cat, role, r.value) && Unique(r.value)
  {
    var names := NonEmpty(Names(fold, raw, ','));
    if CapsOf(cat, fold, role, raw).Ok? {
      DistinctKeeps(names, IsCapabilityOf(cat, role));
    }
  }

  ghost predicate Good(cat: Catalog, roles: seq<string>, r: Result<Setting, Error>) {
    r.Ok? && r.value.Capabilities? ==>
      r.value.role in roles && ValidCaps(cat, r.value.role, r.value.caps) && Unique(r.value.caps)
  }

  lemma GroupOfMeans(cat: Catalog, fold: char -> char, roles: seq<string>, text: string)
    ensures Good(cat, roles, GroupOf(cat, fold, roles, text))
  {
    var parts := Cut(TrimSpace(text), ':');
    if parts.Some? {
      CapsOfMeans(cat, fold, Name(fold, parts.value.0), Swap(parts.value.1, '|', ','));
    }
  }

  predicate Configures(r: Result<Setting, Error>, role: string) {
    r.Ok? && r.value.Capabilities? && r.value.role == role
  }

  /** When the groups fail, it is with the error of the first group that fails; when they do
      not, none fails. */
  lemma {:induction false} FirstErrorDecides(settings: seq<Result<Setting, Error>>) returns (i: nat)
    ensures var r := Collected(settings);
            && (r.Ok? ==> forall j | 0 <= j < |settings| :: settings[j].Ok?)
            && (r.Err? ==> i < |settings| && settings[i] == Err(r.error) && forall j | 0 <= j < i :: settings[j].Ok?)
  {
    i := 0;
    if settings == [] {
    } else {
      var n := |settings| - 1;
      i := FirstErrorDecides(settings[..n]);
      if Collected(settings[..n]).Ok? {
        i := n;
        assert forall j | 0 <= j < n :: settings[..n][j] == settings[j];
      }
    }
  }

  /** A role is configured by the last group that names it, and by nothing else. */
  lemma {:induction false} LastGroupWins(settings: seq<Result<Setting, Error>>, role: string) returns (i: nat)
    requires Collected(settings).Ok?
    ensures var m := Collected(settings).value;
            if role in m then
              && i < |settings| && Configures(settings[i], role) && m[role] == settings[i].value.caps
              && forall j | i < j < |settings| :: !Configures(settings[j], role)
            else forall j | 0 <= j < |settings| :: !Configures(settings[j], role)
  {
    i := 0;
    if settings == [] {
    } else {
      var n := |settings| - 1;
      i := LastGroupWins(settings[..n], role);
      if Configures(settings[n], role) {
        i := n;
      } else {
        assert forall j | 0 <= j < n :: settings[..n][j] == settings[j];
      }
    }
  }

  ghost predicate GoodMap(cat: Catalog, roles: seq<string>, m: map<string, seq<string>>) {
    forall role | role in m :: role in roles && ValidCaps(cat, role, m[role]) && Unique(m[role])
  }

  lemma {:induction false} CollectedIsGood(cat: Catalog, roles: seq<string>, settings: seq<Result<Setting, Error>>)
    requires forall i | 0 <= i < |settings| :: Good(cat, roles, settings[i])
    ensures Collected(settings).Ok? ==> GoodMap(cat, roles, Collected(settings).value)
  {
    if settings == [] {
    } else {
      CollectedIsGood(cat, roles, settings[..|settings| - 1]);
      assert Good(cat, roles, settings[|settings| - 1]);
    }
  }

  lemma GroupsMean(cat: Catalog, fold: char -> char, roles: seq<string>, groups: seq<string>)
    ensures var r := Collected(GroupsOf(cat, fold, roles, groups));
            r.Ok? ==> GoodMap(cat, roles, r.value)
  {
    var settings := GroupsOf(cat, fold, roles, groups);
    forall i | 0 <= i < |settings| ensures Good(cat, roles, settings[i]) {
      GroupOfMeans(cat, fold, roles, groups[i]);
    }
    CollectedIsGood(cat, roles, settings);
  }

  // ---- The loops ----

  lemma UpTo(xs: seq<string>, i: nat)
    requires i < |xs|
    ensures xs[..i + 1][..i] == xs[..i] && xs[..i + 1] == xs[..i] + [xs[i]]
    ensures xs == xs[..i] + [xs[i]] + xs[i + 1..]
  {
  }

  method ParseRoles(cat: Catalog, fold: char -> char, raw: string) returns (r: Result<seq<string>, Error>)
    ensures r == RolesOf(cat, fold, raw)
  {
    if TrimSpace(raw) == "" {
      return Ok([REBFF]);
    }
    var parts := Split(raw, ',');
    ghost var names := Names(fold, raw, ',');
    var seen: set<string>, out: seq<string> := {}, [];
    for i := 0 to |parts|
      invariant out == Distinct(names[..i])
      invariant forall x :: x in seen <==> x in out
      invariant FirstNot(names[..i], IsRole(cat)).None?
    {
      UpTo(names, i);
      var role := ToLower(fold, TrimSpace(parts[i]));
      if role !in cat.allowed {
        FirstNotAfter(names[..i], role, names[i + 1..], IsRole(cat));
        return Err(UnsupportedRole(role));
      }
      if role !in seen {
        seen := seen + {role};
        out := out + [role];
      }
    }
    assert names[..|parts|] == names;
    DistinctMeans(names);
    assert names[0] in out;
    if out == [] {
      return Err(NoRoles);
    }
    return Ok(out);
  }

  lemma FirstBadCapability(names: seq<string>, i: nat, ok: string -> bool)
    requires i < |names| && names[i] != "" && !ok(names[i]) && FirstNot(NonEmpty(names[..i]), ok).None?
    ensures FirstNot(NonEmpty(names), ok) == Some(names[i])
  {
    UpTo(names, i);
    NonEmptyAppend(names[..i + 1], names[i + 1..]);
    FirstNotAfter(NonEmpty(names[..i]), names[i], NonEmpty(names[i + 1..]), ok);
  }

  lemma NothingLeft(names: seq<string>)
    ensures Distinct(NonEmpty(names)) == [] <==> NonEmpty(names) == []
  {
    DistinctMeans(NonEmpty(names));
    if NonEmpty(names) != [] {
      assert NonEmpty(names)[0] in Distinct(NonEmpty(names));
    }
  }

  method ParseCapList(cat: Catalog, fold: char -> char, role: string, raw: string)
    returns (r: Result<seq<string>, Error>)
    ensures r == CapsOf(cat, fold, role, raw)
  {
    var parts := Split(raw, ',');
    ghost var names := Names(fold, raw, ',');
    ghost var ok := IsCapabilityOf(cat, role);
    var seen: set<string>, out: seq<string> := {}, [];
    for i := 0 to |parts|
      invariant out == Distinct(NonEmpty(names[..i]))
      invariant forall x :: x in seen <==> x in out
      invariant FirstNot(NonEmpty(names[..i]), ok).None?
    {
      UpTo(names, i);
      var cap := ToLower(fold, TrimSpace(parts[i]));
      if cap == "" {
        continue;
      }
      if !Allows(cat, role, cap) {
        FirstBadCapability(names, i, ok);
        return Err(UnsupportedCapability(cap, role));
      }
      if cap !in seen {
        seen := seen + {cap};
        out := out + [cap];
      }
    }
    assert names[..|parts|] == names;
    NothingLeft(names);
    if out == [] {
      return Err(NoCapability(role));
    }
    return Ok(out);
  }

  /** A failed group decides the outcome of all. */
  lemma {:induction false} FailureStays(settings: seq<Result<Setting, Error>>, i: nat)
    requires i <= |settings| && Collected(settings[..i]).Err?
    ensures Collected(settings) == Collected(settings[..i])
    decreases |settings| - i
  {
    if i == |settings| {
      assert settings[..i] == settings;
    } else {
      assert settings[..i + 1][..i] == settings[..i];
      FailureStays(settings, i + 1);
    }
  }

  method ParseGroup(cat: Catalog, fold: char -> char, roles: seq<string>, text: string)
    returns (r: Result<Setting, Error>)
    ensures r == GroupOf(cat, fold, roles, text)
  {
    var group := TrimSpace(text);
    if group == "" {
      return Ok(Nothing);
    }
    var parts := Cut(group, ':');
    if parts.None? {
      return Err(BadGroup);
    }
    var role := ToLower(fold, TrimSpace(parts.value.0));
    if role !in roles {
      return Err(UnselectedRole(role));
    }
    var caps := ParseCapList(cat, fold, role, Swap(parts.value.1, '|', ','));
    match caps {
      case Err(e) => return Err(e);
      case Ok(list) => return Ok(Capabilities(role, list));
    }
  }

  /** The loop over groups. */
  method ParseGroups(cat: Catalog, fold: char -> char, roles: seq<string>, groups: seq<string>)
    returns (r: Result<map<string, seq<string>>, Error>)
    ensures r == Collected(GroupsOf(cat, fold, roles, groups))
  {
    ghost var settings := GroupsOf(cat, fold, roles, groups);
    var out := map[];
    for i := 0 to |groups|
      invariant Collected(settings[..i]) == Ok(out)
    {
      assert settings[..i + 1][..i] == settings[..i];
      var setting := ParseGroup(cat, fold, roles, groups[i]);
      if setting.Err? {
        FailureStays(settings, i + 1);
        return Err(setting.error);
      }
      out := Set(out, setting.value);
    }
    assert settings[..|groups|] == settings;
    return Ok(out);
  }

  /** The loop that gives defaults to roles without a list. */
  method FillDefaults(cat: Catalog, roles: seq<string>, given: map<string, seq<string>>)
    returns (out: map<string, seq<string>>)
    requires forall role | role in given :: role in roles
    ensures out == Filled(cat, roles, given)
  {
    out := given;
    for i := 0 to |roles|
      invariant forall role | role in given :: role in out
      invariant forall role | role in out :: role in roles
      invariant forall k | 0 <= k < i :: roles[k] in out && out[roles[k]] == FilledAt(cat, given, roles[k])
      invariant forall role | role in out ::
                  out[role] == FilledAt(cat, given, role) || (role in given && given[role] == out[role] == [])
    {
      if roles[i] !in out || out[roles[i]] == [] {
        out := out[roles[i] := Default(cat, roles[i])];
      }
    }
  }

  method ParseCapabilities(cat: Catalog, fold: char -> char, roles: seq<string>, raw: string)
    returns (r: Result<map<string, seq<string>>, Error>)
    ensures r == CapabilitiesOf(cat, fold, roles, raw)
  {
    if TrimSpace(raw) == "" {
      var out := FillDefaults(cat, roles, map[]);
      return Ok(out);
    }
    if |roles| == 1 && ':' !in raw {
      var caps := ParseCapList(cat, fold, roles[0], Swap(raw, '|', ','));
      match caps {
        case Err(e) => return Err(e);
        case Ok(list) => return Ok(map[roles[0] := list]);
      }
    }
    var given := ParseGroups(cat, fold, roles, Split(raw, ';'));
    if given.Err? {
      return given;
    }
    GroupsMean(cat, fold, roles, Split(raw, ';'));
    var out := FillDefaults(cat, roles, given.value);
    return Ok(out);
  }

  /** The capabilities of one role, as `Validate` checks them. */
  method CheckCaps(cat: Catalog, sel: Selection, role: string) returns (e: Option<Error>)
    requires role in sel.roles
    ensures e.None? <==> role in sel.capabilities && ValidCaps(cat, role, sel.capabilities[role])
    ensures e.Some? ==> Explains(cat, sel, e.value)
  {
    if role !in sel.capabilities || sel.capabilities[role] == [] {
      return Some(NoCapability(role));
    }
    var caps := sel.capabilities[role];
    for i := 0 to |caps|
      invariant forall k | 0 <= k < i :: Allows(cat, role, caps[k])
    {
      if !Allows(cat, role, caps[i]) {
        return Some(UnsupportedCapability(caps[i], role));
      }
    }
    return None;
  }

  /** `Validate` accepts exactly the valid selections, and the error it gives is true. */
  method Validate(cat: Catalog, sel: Selection) returns (e: Option<Error>)
    ensures e.None? <==> ValidSelection(cat, sel)
    ensures e.Some? ==> Explains(cat, sel, e.value)
  {
    if sel.roles == [] {
      return Some(NoRoles);
    }
    var seen: set<string> := {};
    for i := 0 to |sel.roles|
      invariant seen == set role | role in sel.roles[..i]
      invariant Unique(sel.roles[..i])
      invariant forall k | 0 <= k < i ::
                  && sel.roles[k] in cat.allowed && sel.roles[k] in sel.capabilities
                  && ValidCaps(cat, sel.roles[k], sel.capabilities[sel.roles[k]])
    {
      UpTo(sel.roles, i);
      var role := sel.roles[i];
      if role !in cat.allowed {
        return Some(UnsupportedRole(role));
      }
      if role in seen {
        var k :| 0 <= k < i && sel.roles[k] == role;
        return Some(DuplicateRole(role));
      }
      seen := seen + {role};
      var bad := CheckCaps(cat, sel, role);
      if bad.Some? {
        return bad;
      }
    }
    assert sel.roles[..|sel.roles|] == sel.roles;
    var rest := sel.capabilities.Keys;
    while rest != {}
      invariant rest <= sel.capabilities.Keys
      invariant forall role | role in sel.capabilities && role !in rest :: role in sel.roles
    {
      var role :| role in rest;
      if role !in seen {
        return Some(UnselectedRole(role));
      }
      rest := rest - {role};
    }
    return None;
  }

  // ---- Whatever parses is valid ----

  /** Every role has defaults, and they are a valid list without repetitions. */
  ghost predicate Sound(cat: Catalog) {
    && REBFF in cat.allowed
    && forall role | role in cat.allowed :: ValidCaps(cat, role, Default(cat, role)) && Unique(Default(cat, role))
  }

  lemma RolesOfMeans(cat: Catalog, fold: char -> char, raw: string)
    requires Sound(cat)
    ensures var r := RolesOf(cat, fold, raw);
            r.Ok? ==> r.value != [] && Unique(r.value) && forall i | 0 <= i < |r.value| :: r.value[i] in cat.allowed
  {
    if TrimSpace(raw) != "" && RolesOf(cat, fold, raw).Ok? {
      DistinctKeeps(Names(fold, raw, ','), IsRole(cat));
    }
  }

  lemma FilledIsGood(cat: Catalog, roles: seq<string>, m: map<string, seq<string>>)
    requires Sound(cat) && GoodMap(cat, roles, m) && forall role | role in roles :: role in cat.allowed
    ensures GoodMap(cat, roles, Filled(cat, roles, m))
  {
  }

  lemma CapabilitiesOfMeans(cat: Catalog, fold: char -> char, roles: seq<string>, raw: string)
    requires Sound(cat) && forall role | role in roles :: role in cat.allowed
    ensures var r := CapabilitiesOf(cat, fold, roles, raw);
            r.Ok? ==> GoodMap(cat, roles, r.value) && forall role | role in roles :: role in r.value
  {
    if TrimSpace(raw) == "" {
      FilledIsGood(cat, roles, map[]);
    } else if |roles| == 1 && ':' !in raw {
      CapsOfMeans(cat, fold, roles[0], Swap(raw, '|', ','));
    } else {
      var m := Collected(GroupsOf(cat, fold, roles, Split(raw, ';')));
      GroupsMean(cat, fold, roles, Split(raw, ';'));
      if m.Ok? {
        FilledIsGood(cat, roles, m.value);
      }
    }
  }

  lemma ParsedIsValidIn(cat: Catalog, fold: char -> char, rolesRaw: string, capsRaw: string)
    requires Sound(cat)
    ensures var roles := RolesOf(cat, fold, rolesRaw);
            roles.Ok? ==>
              var caps := CapabilitiesOf(cat, fold, roles.value, capsRaw);
              caps.Ok? ==>
                && ValidSelection(cat, Selection(roles.value, caps.value))
                && forall role | role in caps.value :: Unique(caps.value[role])
  {
    RolesOfMeans(cat, fold, rolesRaw);
    var roles := RolesOf(cat, fold, rolesRaw);
    if roles.Ok? {
      CapabilitiesOfMeans(cat, fold, roles.value, capsRaw);
    }
  }

  // ---- Text forms that parse back ----

  /** Names of the tables: lower-case letters and hyphens. */
  predicate Plain(s: string) {
    s != "" && forall i | 0 <= i < |s| :: 'a' <= s[i] <= 'z' || s[i] == '-'
  }

  ghost predicate PlainNames(cat: Catalog) {
    && (forall role | role in cat.allowed :: Plain(role))
    && (forall role, cap | Allows(cat, role, cap) :: Plain(cap))
  }

  lemma LowerOfPlain(fold: char -> char, s: string)
    requires Plain(s)
    ensures ToLower(fold, s) == s
  {
    forall i | 0 <= i < |s| ensures ToLower(fold, s)[i] == s[i] {
    }
  }

  lemma PlainIsItsName(fold: char -> char, s: string)
    requires Plain(s)
    ensures Name(fold, s) == s
  {
    assert Trimmed(s);
    TrimSpaceFixes(s);
    LowerOfPlain(fold, s);
  }

  lemma NamesOfJoined(fold: char -> char, names: seq<string>)
    requires names != [] && forall i | 0 <= i < |names| :: Plain(names[i])
    ensures Names(fold, Join(names, ','), ',') == names
  {
    forall i | 0 <= i < |names| ensures Name(fold, names[i]) == names[i] {
      PlainIsItsName(fold, names[i]);
    }
    JoinSplits(names, ',');
  }

  /** Joined plain names start and end with a name's character. */
  lemma {:induction false} JoinedEnds(names: seq<string>, sep: char)
    requires names != [] && forall i | 0 <= i < |names| :: Plain(names[i])
    ensures var s := Join(names, sep); s != "" && !IsSpace(s[0]) && !IsSpace(s[|s| - 1])
  {
    if |names| == 1 {
    } else {
      JoinedEnds(names[1..], sep);
    }
  }

  lemma NotBlank(s: string)
    requires s != "" && !IsSpace(s[0])
    ensures TrimSpace(s) != ""
  {
    var before, after := TrimSpaceMeans(s);
    assert s == before + TrimSpace(s) + after;
  }

  lemma RolesOfNames(cat: Catalog, fold: char -> char, raw: string, names: seq<string>)
    requires TrimSpace(raw) != "" && Names(fold, raw, ',') == names
    requires Unique(names) && forall i | 0 <= i < |names| :: names[i] in cat.allowed
    ensures RolesOf(cat, fold, raw) == Ok(names)
  {
    DistinctOfUnique(names);
    assert FirstNot(names, IsRole(cat)).None?;
  }

  /** Joining the names of a valid role list with commas parses back to that list. */
  lemma RolesRoundTripIn(cat: Catalog, fold: char -> char, roles: seq<string>)
    requires PlainNames(cat) && roles != [] && Unique(roles) && forall i | 0 <= i < |roles| :: roles[i] in cat.allowed
    ensures RolesOf(cat, fold, Join(roles, ',')) == Ok(roles)
  {
    JoinedEnds(roles, ',');
    NotBlank(Join(roles, ','));
    NamesOfJoined(fold, roles);
    RolesOfNames(cat, fold, Join(roles, ','), roles);
  }

  /** One group as text, and a selection as text. */
  function GroupText(role: string, caps: seq<string>): string { role + [':'] + Join(caps, '|') }

  function GroupTexts(sel: Selection): (groups: seq<string>)
    requires forall role | role in sel.roles :: role in sel.capabilities
    ensures |groups| == |sel.roles|
    ensures forall i | 0 <= i < |groups| :: groups[i] == GroupText(sel.roles[i], sel.capabilities[sel.roles[i]])
  {
    seq(|sel.roles|, i requires 0 <= i < |sel.roles| => GroupText(sel.roles[i], sel.capabilities[sel.roles[i]]))
  }

  function CapabilitiesText(sel: Selection): string
    requires forall role | role in sel.roles :: role in sel.capabilities
  {
    Join(GroupTexts(sel), ';')
  }

  predicate AllPlain(names: seq<string>) { forall i | 0 <= i < |names| :: Plain(names[i]) }

  lemma {:induction false} JoinedHasNo(names: seq<string>, sep: char, c: char)
    requires AllPlain(names) && sep != c && !('a' <= c <= 'z') && c != '-'
    ensures c !in Join(names, sep)
  {
    if |names| <= 1 {
    } else {
      JoinedHasNo(names[1..], sep, c);
    }
  }

  lemma NonEmptyOfPlain(names: seq<string>)
    requires AllPlain(names)
    ensures NonEmpty(names) == names
  {
    if names == [] {
    } else {
      NonEmptyOfPlain(names[..|names| - 1]);
    }
  }

  /** A list of capabilities joined by commas parses back. */
  lemma CapsRoundTrip(cat: Catalog, fold: char -> char, role: string, caps: seq<string>)
    requires AllPlain(caps) && Unique(caps) && ValidCaps(cat, role, caps)
    ensures CapsOf(cat, fold, role, Join(caps, ',')) == Ok(caps)
  {
    NamesOfJoined(fold, caps);
    NonEmptyOfPlain(caps);
    DistinctOfUnique(caps);
  }

  lemma BarsAreCommas(caps: seq<string>)
    requires AllPlain(caps)
    ensures Swap(Join(caps, '|'), '|', ',') == Join(caps, ',')
  {
    SwapJoin(caps, '|', ',');
  }

  lemma GroupTextIsTrimmed(role: string, caps: seq<string>)
    requires Plain(role) && caps != [] && AllPlain(caps)
    ensures TrimSpace(GroupText(role, caps)) == GroupText(role, caps)
  {
    JoinedEnds(caps, '|');
    TrimmedAround(role, ':', Join(caps, '|'));
  }

  lemma GroupTextHasNoSemicolon(role: string, caps: seq<string>)
    requires Plain(role) && AllPlain(caps)
    ensures ';' !in GroupText(role, caps)
  {
    JoinedHasNo(caps, '|', ';');
  }

  lemma GroupRoundTrip(cat: Catalog, fold: char -> char, roles: seq<string>, role: string, caps: seq<string>)
    requires role in roles && Plain(role) && AllPlain(caps) && Unique(caps) && ValidCaps(cat, role, caps)
    ensures GroupOf(cat, fold, roles, GroupText(role, caps)) == Ok(Capabilities(role, caps))
  {
    GroupTextIsTrimmed(role, caps);
    CutAfter(role, Join(caps, '|'), ':');
    PlainIsItsName(fold, role);
    BarsAreCommas(caps);
    CapsRoundTrip(cat, fold, role, caps);
  }

  /** Settings that name different roles give each role its list. */
  lemma {:induction false} CollectedInTurn(roles: seq<string>, caps: map<string, seq<string>>,
                                           settings: seq<Result<Setting, Error>>)
    requires |settings| == |roles|
    requires forall i | 0 <= i < |roles| ::
               roles[i] in caps && settings[i] == Ok(Capabilities(roles[i], caps[roles[i]]))
    ensures Collected(settings) == Ok(map role | role in roles :: caps[role])
  {
    if roles == [] {
    } else {
      var n := |roles| - 1;
      CollectedInTurn(roles[..n], caps, settings[..n]);
      UpTo(roles, n);
      assert (map role | role in roles[..n] :: caps[role])[roles[n] := caps[roles[n]]]
             == map role | role in roles :: caps[role];
    }
  }

  lemma SettingsOf(cat: Catalog, fold: char -> char, sel: Selection, i: nat)
    requires PlainNames(cat) && ValidSelection(cat, sel) && i < |sel.roles| && Unique(sel.capabilities[sel.roles[i]])
    ensures var role := sel.roles[i];
            var caps := sel.capabilities[role];
            && GroupOf(cat, fold, sel.roles, GroupText(role, caps)) == Ok(Capabilities(role, caps))
            && ';' !in GroupText(role, caps) && TrimSpace(GroupText(role, caps)) != ""
  {
    var role := sel.roles[i];
    var caps := sel.capabilities[role];
    assert AllPlain(caps) by {
      forall k | 0 <= k < |caps| ensures Plain(caps[k]) {
        assert Allows(cat, role, caps[k]);
      }
    }
    GroupRoundTrip(cat, fold, sel.roles, role, caps);
    GroupTextHasNoSemicolon(role, caps);
    GroupTextIsTrimmed(role, caps);
  }

  lemma JoinStarts(parts: seq<string>, sep: char)
    requires parts != []
    ensures parts[0] <= Join(parts, sep)
  {
  }

  /** The text is not blank and holds a colon, so that it is read as groups. */
  lemma TextShape(text: string, role: string, rest: string)
    requires Plain(role) && role + [':'] + rest <= text
    ensures TrimSpace(text) != "" && ':' in text
  {
    var group := role + [':'] + rest;
    assert text[0] == group[0] == role[0];
    assert text[|role|] == group[|role|] == ':';
    NotBlank(text);
  }

  lemma GroupsReadBack(cat: Catalog, fold: char -> char, sel: Selection)
    requires PlainNames(cat) && ValidSelection(cat, sel)
    requires forall role | role in sel.capabilities :: Unique(sel.capabilities[role])
    ensures Collected(GroupsOf(cat, fold, sel.roles, Split(CapabilitiesText(sel), ';')))
            == Ok(map role | role in sel.roles :: sel.capabilities[role])
  {
    var groups := GroupTexts(sel);
    forall i | 0 <= i < |groups|
      ensures GroupOf(cat, fold, sel.roles, groups[i]) == Ok(Capabilities(sel.roles[i], sel.capabilities[sel.roles[i]]))
      ensures ';' !in groups[i]
    {
      SettingsOf(cat, fold, sel, i);
    }
    JoinSplits(groups, ';');
    CollectedInTurn(sel.roles, sel.capabilities, GroupsOf(cat, fold, sel.roles, groups));
  }

  lemma FilledOfValid(cat: Catalog, sel: Selection)
    requires ValidSelection(cat, sel)
    ensures Filled(cat, sel.roles, map role | role in sel.roles :: sel.capabilities[role]) == sel.capabilities
  {
  }

  /** Writing the capabilities of a valid selection as `role:capability|capability` groups,
      separated by semicolons, and parsing the text gives the capabilities back. */
  lemma CapabilitiesRoundTripIn(cat: Catalog, fold: char -> char, sel: Selection)
    requires PlainNames(cat) && ValidSelection(cat, sel)
    requires forall role | role in sel.capabilities :: Unique(sel.capabilities[role])
    ensures CapabilitiesOf(cat, fold, sel.roles, CapabilitiesText(sel)) == Ok(sel.capabilities)
  {
    var role := sel.roles[0];
    JoinStarts(GroupTexts(sel), ';');
    TextShape(CapabilitiesText(sel), role, Join(sel.capabilities[role], '|'));
    GroupsReadBack(cat, fold, sel);
    FilledOfValid(cat, sel);
  }

  // ---- With the package's tables ----

  lemma TablesAreSound()
    ensures Sound(TABLES)
  {
    forall role | role in TABLES.allowed
      ensures ValidCaps(TABLES, role, Default(TABLES, role)) && Unique(Default(TABLES, role))
    {
      if role == REBFF {
      } else if role == STORAGE {
      } else if role == STREAMING {
      } else {
      }
    }
  }

  lemma PlainBffNames(cap: string)
    requires cap in TABLES.allowed[REBFF]
    ensures Plain(cap)
  {
  }

  lemma PlainStorageNames(cap: string)
    requires cap in TABLES.allowed[STORAGE]
    ensures Plain(cap)
  {
  }

  lemma PlainStreamingNames(cap: string)
    requires cap in TABLES.allowed[STREAMING]
    ensures Plain(cap)
  {
  }

  lemma PlainWebSocketNames(cap: string)
    requires cap in TABLES.allowed[WEBSOCKET]
    ensures Plain(cap)
  {
  }

  lemma PlainRoleNames(role: string)
    requires role in TABLES.allowed
    ensures Plain(role)
  {
  }

  lemma TablesArePlain()
    ensures PlainNames(TABLES)
  {
    forall role | role in TABLES.allowed ensures Plain(role) {
      PlainRoleNames(role);
    }
    forall role, cap | Allows(TABLES, role, cap) ensures Plain(cap) {
      if role == REBFF {
        PlainBffNames(cap);
      } else if role == STORAGE {
        PlainStorageNames(cap);
      } else if role == STREAMING {
        PlainStreamingNames(cap);
      } else {
        PlainWebSocketNames(cap);
      }
    }
  }

  /** Whatever the two parsers accept, the validator accepts, and no list repeats. */
  lemma ParsedIsValid(fold: char -> char, rolesRaw: string, capsRaw: string)
    ensures var roles := RolesOf(TABLES, fold, rolesRaw);
            roles.Ok? ==>
              var caps := CapabilitiesOf(TABLES, fold, roles.value, capsRaw);
              caps.Ok? ==>
                && ValidSelection(TABLES, Selection(roles.value, caps.value))
                && forall role | role in caps.value :: Unique(caps.value[role])
  {
    TablesAreSound();
    ParsedIsValidIn(TABLES, fold, rolesRaw, capsRaw);
  }

  /** Role lists that parsed are written by joining their names with commas. */
  lemma RolesRoundTrip(fold: char -> char, raw: string)
    ensures var roles := RolesOf(TABLES, fold, raw);
            roles.Ok? ==> RolesOf(TABLES, fold, Join(roles.value, ',')) == roles
  {
    TablesAreSound();
    TablesArePlain();
    RolesOfMeans(TABLES, fold, raw);
    var roles := RolesOf(TABLES, fold, raw);
    if roles.Ok? {
      RolesRoundTripIn(TABLES, fold, roles.value);
    }
  }

  /** Every valid selection without repeated capabilities can be written as two texts. */
  lemma EverySelectionHasAText(fold: char -> char, sel: Selection)
    requires ValidSelection(TABLES, sel)
    requires forall role | role in sel.capabilities :: Unique(sel.capabilities[role])
    ensures RolesOf(TABLES, fold, Join(sel.roles, ',')) == Ok(sel.roles)
    ensures CapabilitiesOf(TABLES, fold, sel.roles, CapabilitiesText(sel)) == Ok(sel.capabilities)
  {
    TablesArePlain();
    RolesRoundTripIn(TABLES, fold, sel.roles);
    CapabilitiesRoundTripIn(TABLES, fold, sel);
  }
}
