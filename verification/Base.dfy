/** Small datatypes and one counting fact shared by the models. */
module Base {

  datatype Option<+T> = None | Some(value: T)

  datatype Result<+T, +E> = Ok(value: T) | Err(error: E)

  /** Clock readings are positive: 0 stands for Go's `time.Time{}`, which no clock returns. */
  type Moment = t: int | 0 < t witness 1

  const SECOND := 1_000_000_000
  const MINUTE := 60 * SECOND

  /** The callers whose program counter is in a given class, as a set. */
  function Where<P>(pcs: map<nat, P>, f: P -> bool): set<nat> {
    set c | c in pcs && f(pcs[c])
  }

  lemma Without(s: set<nat>, c: nat)
    ensures |s - {c}| == |s| - if c in s then 1 else 0
  {
    if c in s {
      assert s == (s - {c}) + {c};
    } else {
      assert s == s - {c};
    }
  }

  lemma SameElsewhere<P>(pcs: map<nat, P>, c: nat, pc: P, f: P -> bool)
    ensures Where(pcs[c := pc], f) - {c} == Where(pcs, f) - {c}
  {
  }

  /** Moving one caller to a new program counter changes each count by at most one. */
  lemma WhereAfterMove<P>(pcs: map<nat, P>, c: nat, pc: P, f: P -> bool)
    ensures |Where(pcs[c := pc], f)|
            == |Where(pcs, f)|
               - (if c in pcs && f(pcs[c]) then 1 else 0)
               + (if f(pc) then 1 else 0)
  {
    SameElsewhere(pcs, c, pc, f);
    Without(Where(pcs, f), c);
    Without(Where(pcs[c := pc], f), c);
  }

  lemma WhereSplits<P(!new)>(pcs: map<nat, P>, f: P -> bool, g: P -> bool, h: P -> bool)
    requires forall p :: h(p) <==> f(p) || g(p)
    requires forall p :: !f(p) || !g(p)
    ensures |Where(pcs, h)| == |Where(pcs, f)| + |Where(pcs, g)|
  {
    assert Where(pcs, h) == Where(pcs, f) + Where(pcs, g);
    assert Where(pcs, f) !! Where(pcs, g);
  }

  lemma SubsetSize<T>(a: set<T>, b: set<T>)
    requires a <= b
    ensures |a| <= |b|
  {
    assert b == a + (b - a);
  }

  /** A number that is not in the set. */
  lemma Above(ids: set<nat>) returns (bound: nat)
    ensures bound !in ids && forall id | id in ids :: id < bound
  {
    bound := 0;
    if ids == {} {
    } else {
      var id :| id in ids;
      var rest := Above(ids - {id});
      bound := if rest > id then rest else id + 1;
      assert forall other | other in ids :: other == id || other in ids - {id};
    }
  }
}
