/** Shared vocabulary: optional values, clock units, horizons and maxima of finite sets. */
module Core {

  datatype Option<+T> = None | Some(value: T)

  const NS_PER_MS: int := 1_000_000
  const NS_PER_SECOND: int := 1_000_000_000

  function Min(a: int, b: int): int { if a <= b then a else b }

  function Max(a: int, b: int): int { if a <= b then b else a }

  /** Some element of a nonempty set. */
  lemma Pick<T>(s: set<T>) returns (x: T)
    requires s != {}
    ensures x in s
  {
    x :| x in s;
  }

  lemma {:induction false} SubsetSize<T>(a: set<T>, b: set<T>)
    requires a <= b
    ensures |a| <= |b|
  {
    if a != {} {
      var x := Pick(a);
      SubsetSize(a - {x}, b - {x});
    }
  }

  ghost predicate IsMaximum(s: set<int>, m: int) {
    m in s && forall x :: x in s ==> x <= m
  }

  lemma {:induction false} MaximumExists(s: set<int>)
    requires s != {}
    ensures exists m :: IsMaximum(s, m)
  {
    var a := Pick(s);
    var rest := s - {a};
    assert s == rest + {a};
    if rest == {} {
      assert IsMaximum(s, a);
    } else {
      MaximumExists(rest);
      var m :| IsMaximum(rest, m);
      assert IsMaximum(s, Max(a, m));
    }
  }

  /** The largest element of a nonempty finite set. */
  function MaxOf(s: set<int>): (m: int)
    requires s != {}
    ensures m in s
    ensures forall x :: x in s ==> x <= m
  {
    MaximumExists(s);
    assert exists m :: m in s && forall x :: x in s ==> x <= m by {
      var top :| IsMaximum(s, top);
    }
    var m :| m in s && forall x :: x in s ==> x <= m;
    m
  }

  /** The elements of a finite set, smallest first. */
  function Sorted(s: set<int>): (r: seq<int>)
    ensures forall x :: x in r <==> x in s
    ensures forall i, j :: 0 <= i < j < |r| ==> r[i] < r[j]
  {
    if s == {} then [] else Sorted(s - {MaxOf(s)}) + [MaxOf(s)]
  }
}
