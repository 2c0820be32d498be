/** The configuration texts may be spelled in either case: what the parsers make of them depends on
    their letters only up to case. */
module Spelling {
  import opened Base
  import opened Text
  import opened RuntimeConfig

  /** The same character, or the same letter of A to Z in the other case. */
  predicate SameLetter(a: char, b: char) {
    || a == b
    || (65 <= a as int <= 90 && b as int == a as int + 32)
    || (65 <= b as int <= 90 && a as int == b as int + 32)
  }

  predicate SameLetters(a: string, b: string) {
    |a| == |b| && forall i | 0 <= i < |a| :: SameLetter(a[i], b[i])
  }

  predicate AllSame(ps: seq<string>, qs: seq<string>) {
    |ps| == |qs| && forall i | 0 <= i < |ps| :: SameLetters(ps[i], qs[i])
  }

  lemma LowerSame(fold: char -> char, a: string, b: string)
    requires SameLetters(a, b)
    ensures ToLower(fold, a) == ToLower(fold, b)
  {
    forall i | 0 <= i < |a| ensures ToLower(fold, a)[i] == ToLower(fold, b)[i] {
      LowerMeans(fold, a, i);
      LowerMeans(fold, b, i);
    }
  }

  lemma SpaceSame(a: char, b: char)
    requires SameLetter(a, b)
    ensures IsSpace(a) == IsSpace(b)
  {
    SpacesAre(a);
    SpacesAre(b);
  }

  lemma {:induction false} TrimLeftSame(a: string, b: string)
    requires SameLetters(a, b)
    ensures SameLetters(TrimLeft(a), TrimLeft(b))
  {
    if a == "" {
    } else {
      SpaceSame(a[0], b[0]);
      TrimLeftSame(a[1..], b[1..]);
    }
  }

  lemma {:induction false} TrimRightSame(a: string, b: string)
    requires SameLetters(a, b)
    ensures SameLetters(TrimRight(a), TrimRight(b))
  {
    if a == "" {
    } else {
      SpaceSame(a[|a| - 1], b[|b| - 1]);
      TrimRightSame(a[..|a| - 1], b[..|b| - 1]);
    }
  }

  lemma NameSame(fold: char -> char, a: string, b: string)
    requires SameLetters(a, b)
    ensures Name(fold, a) == Name(fold, b)
  {
    TrimLeftSame(a, b);
    TrimRightSame(TrimLeft(a), TrimLeft(b));
    LowerSame(fold, TrimSpace(a), TrimSpace(b));
  }

  lemma {:induction false} SplitSame(a: string, b: string, sep: char)
    requires SameLetters(a, b) && (sep as int < 65 || 122 < sep as int)
    ensures AllSame(Split(a, sep), Split(b, sep))
  {
    if a == "" {
    } else {
      SplitSame(a[1..], b[1..], sep);
    }
  }

  lemma NamesSame(fold: char -> char, a: string, b: string)
    requires SameLetters(a, b)
    ensures Names(fold, a, ',') == Names(fold, b, ',')
  {
    SplitSame(a, b, ',');
    var ps, qs := Split(a, ','), Split(b, ',');
    forall i | 0 <= i < |ps| ensures Name(fold, ps[i]) == Name(fold, qs[i]) {
      NameSame(fold, ps[i], qs[i]);
    }
  }

  /** The list of roles. */
  lemma RolesIgnoreCase(cat: Catalog, fold: char -> char, a: string, b: string)
    requires SameLetters(a, b)
    ensures RolesOf(cat, fold, a) == RolesOf(cat, fold, b)
  {
    TrimLeftSame(a, b);
    TrimRightSame(TrimLeft(a), TrimLeft(b));
    NamesSame(fold, a, b);
  }

  /** A list of capabilities. */
  lemma CapsIgnoreCase(cat: Catalog, fold: char -> char, role: string, a: string, b: string)
    requires SameLetters(a, b)
    ensures CapsOf(cat, fold, role, a) == CapsOf(cat, fold, role, b)
  {
    NamesSame(fold, a, b);
  }

  lemma {:induction false} CutSame(a: string, b: string, sep: char)
    requires SameLetters(a, b) && (sep as int < 65 || 122 < sep as int)
    ensures Cut(a, sep).Some? == Cut(b, sep).Some?
    ensures Cut(a, sep).Some? ==>
              && SameLetters(Cut(a, sep).value.0, Cut(b, sep).value.0)
              && SameLetters(Cut(a, sep).value.1, Cut(b, sep).value.1)
  {
    if a == "" {
    } else {
      CutSame(a[1..], b[1..], sep);
    }
  }

  lemma SwapSame(a: string, b: string)
    requires SameLetters(a, b)
    ensures SameLetters(Swap(a, '|', ','), Swap(b, '|', ','))
  {
  }

  /** One group. */
  lemma GroupIgnoresCase(cat: Catalog, fold: char -> char, roles: seq<string>, a: string, b: string)
    requires SameLetters(a, b)
    ensures GroupOf(cat, fold, roles, a) == GroupOf(cat, fold, roles, b)
  {
    TrimLeftSame(a, b);
    TrimRightSame(TrimLeft(a), TrimLeft(b));
    var g, h := TrimSpace(a), TrimSpace(b);
    CutSame(g, h, ':');
    var p, q := Cut(g, ':'), Cut(h, ':');
    if p.Some? {
      NameSame(fold, p.value.0, q.value.0);
      SwapSame(p.value.1, q.value.1);
      CapsIgnoreCase(cat, fold, Name(fold, p.value.0), Swap(p.value.1, '|', ','), Swap(q.value.1, '|', ','));
    }
  }

  lemma HasSame(a: string, b: string, sep: char)
    requires SameLetters(a, b) && (sep as int < 65 || 122 < sep as int)
    ensures sep in a <==> sep in b
  {
    if sep in a {
      var i :| 0 <= i < |a| && a[i] == sep;
      assert SameLetter(a[i], b[i]);
    }
    if sep in b {
      var i :| 0 <= i < |b| && b[i] == sep;
      assert SameLetter(a[i], b[i]);
    }
  }

  lemma GroupsSame(cat: Catalog, fold: char -> char, roles: seq<string>, ps: seq<string>, qs: seq<string>)
    requires AllSame(ps, qs)
    ensures GroupsOf(cat, fold, roles, ps) == GroupsOf(cat, fold, roles, qs)
  {
    forall i | 0 <= i < |ps| ensures GroupOf(cat, fold, roles, ps[i]) == GroupOf(cat, fold, roles, qs[i]) {
      GroupIgnoresCase(cat, fold, roles, ps[i], qs[i]);
    }
  }

  /** The whole capabilities text, in the shorthand for one role and in groups. */
  lemma CapabilitiesIgnoreCase(cat: Catalog, fold: char -> char, roles: seq<string>, a: string, b: string)
    requires SameLetters(a, b)
    ensures CapabilitiesOf(cat, fold, roles, a) == CapabilitiesOf(cat, fold, roles, b)
  {
    TrimLeftSame(a, b);
    TrimRightSame(TrimLeft(a), TrimLeft(b));
    HasSame(a, b, ':');
    if |roles| == 1 {
      SwapSame(a, b);
      CapsIgnoreCase(cat, fold, roles[0], Swap(a, '|', ','), Swap(b, '|', ','));
    }
    SplitSame(a, b, ';');
    GroupsSame(cat, fold, roles, Split(a, ';'), Split(b, ';'));
  }

  // ---- The package's tables ----

  /** Which capabilities each role may list. */
  lemma AllowedIff(role: string, cap: string)
    ensures Allows(TABLES, role, cap)
            <==> || (role == "rebff" && cap in ["oidc", "session", "token-refresh", "csrf", "user-context", "api-proxy",
                                                "coarse-authz", "audit", "trace-propagation"])
                 || (role == "storage" && cap in ["upload", "download", "multipart", "presign", "metadata", "audit"])
                 || (role == "streaming" && cap in ["playback", "manifest", "token", "origin-select", "audit"])
                 || (role == "websocket" && cap in ["connect", "publish", "subscribe", "presence", "heartbeat",
                                                    "audit"])
  {
  }
}
