/** The string functions the configuration code relies on, over sequences of characters. */
module Text {
  import opened Base

  /** unicode.IsSpace. */
  predicate IsSpace(c: char) {
    || '\t' <= c <= '\r' || c == ' ' || c == '\U{85}' || c == '\U{A0}' || c == '\U{1680}'
    || '\U{2000}' <= c <= '\U{200A}' || c == '\U{2028}' || c == '\U{2029}' || c == '\U{202F}'
    || c == '\U{205F}' || c == '\U{3000}'
  }

  /** The code points with the White_Space property that Go's function knows. */
  const WHITE_SPACE := {
    0x9, 0xA, 0xB, 0xC, 0xD, 0x20, 0x85, 0xA0, 0x1680, 0x2000, 0x2001, 0x2002, 0x2003, 0x2004, 0x2005, 0x2006, 0x2007,
    0x2008, 0x2009, 0x200A, 0x2028, 0x2029, 0x202F, 0x205F, 0x3000}

  lemma SpacesAre(c: char)
    ensures IsSpace(c) <==> c as int in WHITE_SPACE
  {
  }

  function TrimLeft(s: string): string {
    if s != "" && IsSpace(s[0]) then TrimLeft(s[1..]) else s
  }

  function TrimRight(s: string): string {
    if s != "" && IsSpace(s[|s| - 1]) then TrimRight(s[..|s| - 1]) else s
  }

  /** strings.TrimSpace. */
  function TrimSpace(s: string): string { TrimRight(TrimLeft(s)) }

  predicate Spaces(s: string) { forall i | 0 <= i < |s| :: IsSpace(s[i]) }

  predicate Trimmed(s: string) { s == "" || (!IsSpace(s[0]) && !IsSpace(s[|s| - 1])) }

  lemma {:induction false} TrimLeftMeans(s: string) returns (before: string)
    ensures s == before + TrimLeft(s) && Spaces(before)
    ensures TrimLeft(s) == "" || !IsSpace(TrimLeft(s)[0])
  {
    if s == "" || !IsSpace(s[0]) {
      before := "";
    } else {
      var rest := TrimLeftMeans(s[1..]);
      before := [s[0]] + rest;
      assert s == [s[0]] + s[1..];
    }
  }

  lemma {:induction false} TrimRightMeans(s: string) returns (after: string)
    ensures s == TrimRight(s) + after && Spaces(after)
    ensures TrimRight(s) == "" || !IsSpace(TrimRight(s)[|TrimRight(s)| - 1])
  {
    if s == "" || !IsSpace(s[|s| - 1]) {
      after := "";
    } else {
      var rest := TrimRightMeans(s[..|s| - 1]);
      after := rest + [s[|s| - 1]];
      assert s == s[..|s| - 1] + [s[|s| - 1]];
    }
  }

  /** Trimming removes spaces at both ends, all of them and nothing else. */
  lemma TrimSpaceMeans(s: string) returns (before: string, after: string)
    ensures s == before + TrimSpace(s) + after && Spaces(before) && Spaces(after) && Trimmed(TrimSpace(s))
  {
    before := TrimLeftMeans(s);
    after := TrimRightMeans(TrimLeft(s));
    assert TrimSpace(s) == "" || TrimSpace(s)[0] == TrimLeft(s)[0];
  }

  /** A trimmed string is left alone, so trimming twice is trimming once. */
  lemma TrimSpaceFixes(s: string)
    ensures Trimmed(s) ==> TrimSpace(s) == s
    ensures TrimSpace(TrimSpace(s)) == TrimSpace(s)
  {
    var before, after := TrimSpaceMeans(s);
  }

  lemma TrimmedAround(a: string, c: char, b: string)
    requires a != "" && !IsSpace(a[0]) && b != "" && !IsSpace(b[|b| - 1])
    ensures TrimSpace(a + [c] + b) == a + [c] + b
  {
    var s := a + [c] + b;
    assert s[0] == a[0] && s[|s| - 1] == b[|b| - 1];
    TrimSpaceFixes(s);
  }

  /** strings.ToLower.  `fold` is what it does outside ASCII. */
  function ToLower(fold: char -> char, s: string): (r: string)
    ensures |r| == |s|
  {
    seq(|s|, i requires 0 <= i < |s| =>
      if 'A' <= s[i] <= 'Z' then s[i] + ('a' - 'A') else if s[i] < '\U{80}' then s[i] else fold(s[i]))
  }

  /** Letters A to Z move by 32, the rest of ASCII stays. */
  lemma LowerMeans(fold: char -> char, s: string, i: nat)
    requires i < |s|
    ensures var from, to := s[i] as int, ToLower(fold, s)[i];
            if 65 <= from <= 90 then to as int == from + 32
            else if from < 128 then to == s[i]
            else to == fold(s[i])
  {
  }

  /** strings.Split with a separator of one character. */
  function Split(s: string, sep: char): (parts: seq<string>)
    ensures |parts| > 0
  {
    if s == "" then [""]
    else if s[0] == sep then [""] + Split(s[1..], sep)
    else
      var rest := Split(s[1..], sep);
      [[s[0]] + rest[0]] + rest[1..]
  }

  /** strings.Join with a separator of one character. */
  function Join(parts: seq<string>, sep: char): string {
    if parts == [] then "" else if |parts| == 1 then parts[0] else parts[0] + [sep] + Join(parts[1..], sep)
  }

  predicate Free(parts: seq<string>, sep: char) {
    forall i | 0 <= i < |parts| :: sep !in parts[i]
  }

  lemma {:induction false} SplitIsFree(s: string, sep: char)
    ensures Free(Split(s, sep), sep)
  {
    if s == "" {
    } else {
      SplitIsFree(s[1..], sep);
    }
  }

  lemma JoinFirst(first: string, rest: seq<string>, sep: char)
    requires rest != []
    ensures Join([first] + rest, sep) == first + [sep] + Join(rest, sep)
  {
    assert ([first] + rest)[1..] == rest;
  }

  /** Lengthening the first part lengthens the joined text. */
  lemma JoinLonger(c: char, parts: seq<string>, sep: char)
    requires parts != []
    ensures Join([[c] + parts[0]] + parts[1..], sep) == [c] + Join(parts, sep)
  {
    var longer := [[c] + parts[0]] + parts[1..];
    if |parts| > 1 {
      assert longer[1..] == parts[1..];
      assert [c] + parts[0] + [sep] + Join(parts[1..], sep) == [c] + (parts[0] + [sep] + Join(parts[1..], sep));
    }
  }

  lemma {:induction false} SplitJoinsBack(s: string, sep: char)
    ensures Join(Split(s, sep), sep) == s
  {
    if s == "" {
    } else {
      var rest := Split(s[1..], sep);
      SplitJoinsBack(s[1..], sep);
      if s[0] == sep {
        JoinFirst("", rest, sep);
        assert "" + [sep] + s[1..] == s;
      } else {
        JoinLonger(s[0], rest, sep);
      }
    }
  }

  /** Splitting cuts at every separator and loses nothing else. */
  lemma SplitJoins(s: string, sep: char)
    ensures Free(Split(s, sep), sep) && Join(Split(s, sep), sep) == s
  {
    SplitIsFree(s, sep);
    SplitJoinsBack(s, sep);
  }

  lemma {:induction false} SplitAfter(part: string, tail: string, sep: char)
    requires sep !in part
    ensures Split(part + [sep] + tail, sep) == [part] + Split(tail, sep)
  {
    var s := part + [sep] + tail;
    if part == "" {
      assert s[1..] == tail;
    } else {
      SplitAfter(part[1..], tail, sep);
      assert s[1..] == part[1..] + [sep] + tail;
      assert part == [part[0]] + part[1..];
    }
  }

  lemma {:induction false} SplitWhole(part: string, sep: char)
    requires sep !in part
    ensures Split(part, sep) == [part]
  {
    if part == "" {
    } else {
      SplitWhole(part[1..], sep);
      assert part == [part[0]] + part[1..];
    }
  }

  /** Joining parts without separators in them and splitting gives the parts back. */
  lemma {:induction false} JoinSplits(parts: seq<string>, sep: char)
    requires parts != [] && Free(parts, sep)
    ensures Split(Join(parts, sep), sep) == parts
  {
    if |parts| == 1 {
      SplitWhole(parts[0], sep);
    } else {
      JoinSplits(parts[1..], sep);
      SplitAfter(parts[0], Join(parts[1..], sep), sep);
    }
  }

  /** strings.SplitN(s, sep, 2), when it yields two parts. */
  function Cut(s: string, sep: char): Option<(string, string)> {
    if s == "" then None
    else if s[0] == sep then Some(("", s[1..]))
    else
      var r := Cut(s[1..], sep);
      if r.None? then None else Some(([s[0]] + r.value.0, r.value.1))
  }

  /** Cutting finds the first separator. */
  lemma {:induction false} CutAfter(head: string, tail: string, sep: char)
    requires sep !in head
    ensures Cut(head + [sep] + tail, sep) == Some((head, tail))
  {
    var s := head + [sep] + tail;
    if head == "" {
      assert s[1..] == tail;
    } else {
      CutAfter(head[1..], tail, sep);
      assert s[1..] == head[1..] + [sep] + tail;
      assert head == [head[0]] + head[1..];
    }
  }

  /** strings.ReplaceAll of one character by another. */
  function Swap(s: string, from: char, to: char): (r: string)
    ensures |r| == |s| && forall i | 0 <= i < |s| :: r[i] == if s[i] == from then to else s[i]
  {
    seq(|s|, i requires 0 <= i < |s| => if s[i] == from then to else s[i])
  }

  lemma {:induction false} SwapJoin(parts: seq<string>, from: char, to: char)
    requires Free(parts, from)
    ensures Swap(Join(parts, from), from, to) == Join(parts, to)
  {
    if |parts| == 1 {
      assert Swap(parts[0], from, to) == parts[0];
    } else if parts != [] {
      SwapJoin(parts[1..], from, to);
      var a, b := parts[0] + [from], Join(parts[1..], from);
      assert Swap(a + b, from, to) == Swap(a, from, to) + Swap(b, from, to);
      assert Swap(a, from, to) == parts[0] + [to];
    }
  }
}
