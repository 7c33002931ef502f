/** Sorting by a strict order: the result depends on the elements alone. */
module Sorting {
  function Insert<T>(less: (T, T) -> bool, e: T, q: seq<T>): seq<T> {
    if q == [] || less(e, q[0]) then [e] + q else [q[0]] + Insert(less, e, q[1..])
  }

  function Sort<T>(less: (T, T) -> bool, q: seq<T>): seq<T> {
    if q == [] then [] else Insert(less, q[0], Sort(less, q[1..]))
  }

  ghost function Elements<T>(q: seq<T>): set<T> { set e | e in q }

  predicate InOrder<T>(less: (T, T) -> bool, q: seq<T>) { forall i, j | 0 <= i < j < |q| :: less(q[i], q[j]) }

  predicate Once<T(==)>(q: seq<T>) { forall i, j | 0 <= i < j < |q| :: q[i] != q[j] }

  ghost predicate TotalOn<T(!new)>(less: (T, T) -> bool, s: set<T>) {
    && (forall a | a in s :: !less(a, a))
    && (forall a, b | a in s && b in s :: a == b || less(a, b) || less(b, a))
    && (forall a, b, c | a in s && b in s && c in s && less(a, b) && less(b, c) :: less(a, c))
  }

  lemma ElementsPush<T>(e: T, q: seq<T>)
    ensures Elements([e] + q) == Elements(q) + {e}
  {
    assert forall x | x in q :: x in [e] + q;
    assert ([e] + q)[0] == e;
  }

  lemma ElementsSnoc<T>(q: seq<T>, e: T)
    ensures Elements(q + [e]) == Elements(q) + {e}
  {
    assert forall x | x in q :: x in q + [e];
    assert (q + [e])[|q|] == e;
  }

  lemma {:induction false} InsertElements<T>(less: (T, T) -> bool, e: T, q: seq<T>)
    ensures Elements(Insert(less, e, q)) == Elements(q) + {e} && |Insert(less, e, q)| == |q| + 1
    decreases |q|
  {
    hide Elements;
    ElementsPush(e, q);
    if q != [] && !less(e, q[0]) {
      InsertElements(less, e, q[1..]);
      ElementsPush(q[0], Insert(less, e, q[1..]));
      ElementsPush(q[0], q[1..]);
      assert q == [q[0]] + q[1..];
    }
  }

  lemma {:induction false} InsertInOrder<T(!new)>(less: (T, T) -> bool, s: set<T>, e: T, q: seq<T>)
    requires TotalOn(less, s) && e in s && Elements(q) <= s && e !in Elements(q) && InOrder(less, q)
    ensures InOrder(less, Insert(less, e, q))
    decreases |q|
  {
    if q == [] {
    } else {
      ElementsPush(q[0], q[1..]);
      assert q == [q[0]] + q[1..];
      if less(e, q[0]) {
        forall x | x in Elements(q) ensures less(e, x) { HeadBelow(less, q, x); }
      } else {
        InsertInOrder(less, s, e, q[1..]);
        InsertElements(less, e, q[1..]);
        forall x | x in Elements(Insert(less, e, q[1..])) ensures less(q[0], x) {
          if x != e { HeadBelow(less, q, x); }
        }
      }
    }
  }

  lemma HeadBelow<T>(less: (T, T) -> bool, q: seq<T>, x: T)
    requires InOrder(less, q) && q != [] && x in Elements(q)
    ensures x == q[0] || less(q[0], x)
  {
  }

  lemma {:induction false} SortSorts<T(!new)>(less: (T, T) -> bool, s: set<T>, q: seq<T>)
    requires TotalOn(less, s) && Elements(q) <= s && Once(q)
    ensures InOrder(less, Sort(less, q)) && Elements(Sort(less, q)) == Elements(q) && |Sort(less, q)| == |q|
    decreases |q|
  {
    if q != [] {
      ElementsPush(q[0], q[1..]);
      assert q == [q[0]] + q[1..];
      SortSorts(less, s, q[1..]);
      assert q[0] !in Elements(q[1..]);
      InsertInOrder(less, s, q[0], Sort(less, q[1..]));
      InsertElements(less, q[0], Sort(less, q[1..]));
    }
  }

  lemma HeadOnce<T(!new)>(less: (T, T) -> bool, s: set<T>, q: seq<T>)
    requires TotalOn(less, s) && Elements(q) <= s && InOrder(less, q) && q != []
    ensures Elements(q[1..]) == Elements(q) - {q[0]} && InOrder(less, q[1..])
  {
    ElementsPush(q[0], q[1..]);
    assert q == [q[0]] + q[1..];
    forall x | x in Elements(q[1..]) ensures x != q[0] {
      var i :| 0 <= i < |q[1..]| && q[1..][i] == x;
      assert less(q[0], q[i + 1]);
    }
  }

  /** However they were sorted, two ordered sequences of the same elements are equal. */
  lemma {:induction false} OrderUnique<T(!new)>(less: (T, T) -> bool, s: set<T>, p: seq<T>, q: seq<T>)
    requires TotalOn(less, s) && Elements(p) == Elements(q) <= s && InOrder(less, p) && InOrder(less, q)
    ensures p == q
    decreases |p|
  {
    NoElements(p);
    NoElements(q);
    if p != [] && q != [] {
      HeadBelow(less, p, q[0]);
      HeadBelow(less, q, p[0]);
      assert p[0] in s && q[0] in s;
      HeadOnce(less, s, p);
      HeadOnce(less, s, q);
      OrderUnique(less, s, p[1..], q[1..]);
      assert p == [p[0]] + p[1..] && q == [q[0]] + q[1..];
    }
  }

  lemma NoElements<T>(q: seq<T>)
    ensures Elements(q) == {} <==> q == []
  {
    if q != [] { assert q[0] in Elements(q); }
  }

  lemma PlaceOf<T>(q: seq<T>, e: T) returns (i: nat)
    requires e in Elements(q)
    ensures i < |q| && q[i] == e
  {
    i :| 0 <= i < |q| && q[i] == e;
  }

  /** The elements below `e`. */
  ghost function Below<T>(less: (T, T) -> bool, s: set<T>, e: T): set<T> { set x | x in s && less(x, e) }

  /** The place of an element counts the elements below it. */
  lemma {:induction false} PlaceCounts<T(!new)>(less: (T, T) -> bool, s: set<T>, q: seq<T>, i: nat)
    requires TotalOn(less, s) && Elements(q) == s && InOrder(less, q) && i < |q|
    ensures |Below(less, s, q[i])| == i
    decreases |q|
  {
    assert q[0] in s && q[i] in s;
    HeadOnce(less, s, q);
    var rest := s - {q[0]};
    if i == 0 {
      forall x | x in s ensures !less(x, q[0]) { HeadBelow(less, q, x); }
      assert Below(less, s, q[0]) == {};
    } else {
      BelowHead(less, s, q[0], q[i]);
      assert TotalOn(less, rest);
      hide TotalOn, InOrder, Below, Elements;
      PlaceCounts(less, rest, q[1..], i - 1);
    }
  }

  lemma BelowHead<T(!new)>(less: (T, T) -> bool, s: set<T>, head: T, e: T)
    requires head in s && less(head, e)
    ensures |Below(less, s, e)| == |Below(less, s - {head}, e)| + 1
  {
    assert Below(less, s, e) == Below(less, s - {head}, e) + {head};
  }

  lemma {:induction false} SubsetSize<T>(a: set<T>, b: set<T>)
    requires a <= b
    ensures |a| <= |b|
    decreases |a|
  {
    if e :| e in a { SubsetSize(a - {e}, b - {e}); }
  }

  /** A strict total order on every value of the type. */
  ghost predicate TotalOrder<T(!new)>(less: (T, T) -> bool) {
    && (forall a :: !less(a, a))
    && (forall a, b :: a == b || less(a, b) || less(b, a))
    && (forall a, b, c | less(a, b) && less(b, c) :: less(a, c))
  }

  lemma {:induction false} OnceSize<T>(q: seq<T>)
    requires Once(q)
    ensures |Elements(q)| == |q|
    decreases |q|
  {
    if q != [] {
      ElementsPush(q[0], q[1..]);
      assert q == [q[0]] + q[1..] && q[0] !in Elements(q[1..]);
      OnceSize(q[1..]);
    }
  }

}
