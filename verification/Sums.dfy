/**
 Sums of integers over finite sets of identifiers.
 */
module Sums {
  import opened Basics

  ghost function Sum(s: set<Uuid>, f: Uuid -> int): int
    decreases |s|
  {
    if s == {} then 0
    else
      var x :| x in s;
      f(x) + Sum(s - {x}, f)
  }

  /** It does not matter which element is added last. */
  lemma {:induction false} SumTakeOut(s: set<Uuid>, f: Uuid -> int, y: Uuid)
    requires y in s
    ensures Sum(s, f) == f(y) + Sum(s - {y}, f)
    decreases |s|
  {
    var x :| x in s && Sum(s, f) == f(x) + Sum(s - {x}, f);
    if x != y {
      SumTakeOut(s - {x}, f, y);
      SumTakeOut(s - {y}, f, x);
      assert s - {x} - {y} == s - {y} - {x};
    }
  }

  lemma SumPutIn(s: set<Uuid>, f: Uuid -> int, y: Uuid)
    requires y !in s
    ensures Sum(s + {y}, f) == Sum(s, f) + f(y)
  {
    SumTakeOut(s + {y}, f, y);
    assert s + {y} - {y} == s;
  }

  lemma {:induction false} SumAgrees(s: set<Uuid>, f: Uuid -> int, g: Uuid -> int)
    requires forall x :: x in s ==> f(x) == g(x)
    ensures Sum(s, f) == Sum(s, g)
    decreases |s|
  {
    if s != {} {
      var x :| x in s;
      SumTakeOut(s, f, x);
      SumTakeOut(s, g, x);
      SumAgrees(s - {x}, f, g);
    }
  }

  lemma {:induction false} SumSplits(a: set<Uuid>, b: set<Uuid>, f: Uuid -> int)
    requires a !! b
    ensures Sum(a + b, f) == Sum(a, f) + Sum(b, f)
    decreases |b|
  {
    if b == {} {
      assert a + b == a;
    } else {
      var x :| x in b;
      SumSplits(a, b - {x}, f);
      SumTakeOut(b, f, x);
      SumTakeOut(a + b, f, x);
      assert a + b - {x} == a + (b - {x});
    }
  }

  ghost function Minus(f: Uuid -> int, g: Uuid -> int): Uuid -> int {
    (x: Uuid) => f(x) - g(x)
  }

  ghost function Along(f: Uuid -> int, m: Uuid -> Uuid): Uuid -> int {
    (x: Uuid) => f(m(x))
  }

  lemma {:induction false} SumOfDifference(s: set<Uuid>, f: Uuid -> int, g: Uuid -> int)
    ensures Sum(s, Minus(f, g)) == Sum(s, f) - Sum(s, g)
    decreases |s|
  {
    if s != {} {
      var x :| x in s;
      SumTakeOut(s, f, x);
      SumTakeOut(s, g, x);
      SumTakeOut(s, Minus(f, g), x);
      SumOfDifference(s - {x}, f, g);
    }
  }

  ghost predicate Reaches(a: set<Uuid>, m: Uuid -> Uuid, y: Uuid) {
    exists x :: x in a && m(x) == y
  }

  /** m maps a onto b, one to one. */
  ghost predicate OneToOne(a: set<Uuid>, b: set<Uuid>, m: Uuid -> Uuid) {
    && (forall x :: x in a ==> m(x) in b)
    && (forall x, y :: x in a && y in a && m(x) == m(y) ==> x == y)
    && (forall y :: y in b ==> Reaches(a, m, y))
  }

  lemma OneLess(a: set<Uuid>, b: set<Uuid>, m: Uuid -> Uuid, x: Uuid)
    requires OneToOne(a, b, m) && x in a
    ensures m(x) in b && OneToOne(a - {x}, b - {m(x)}, m)
  {
    forall y | y in b - {m(x)} ensures Reaches(a - {x}, m, y) {
      var z :| z in a && m(z) == y;
      assert z in a - {x};
    }
  }

  lemma SomethingReaches(a: set<Uuid>, b: set<Uuid>, m: Uuid -> Uuid)
    requires OneToOne(a, b, m)
    ensures b != {} ==> a != {}
  {
    if b != {} {
      var y :| y in b;
      assert Reaches(a, m, y);
    }
  }

  lemma SumOfNothing(f: Uuid -> int)
    ensures Sum({}, f) == 0
  {}

  /** Summing over a set or over the set it maps to one to one is the same. */
  lemma {:induction false} SumAlongMap(a: set<Uuid>, b: set<Uuid>, f: Uuid -> int, m: Uuid -> Uuid)
    requires OneToOne(a, b, m)
    ensures Sum(a, Along(f, m)) == Sum(b, f)
    decreases |a|
  {
    hide OneToOne, Sum;
    if a == {} {
      SomethingReaches(a, b, m);
      SumOfNothing(Along(f, m));
      SumOfNothing(f);
    } else {
      var x :| x in a;
      OneLess(a, b, m, x);
      SumAlongMap(a - {x}, b - {m(x)}, f, m);
      SumTakeOut(a, Along(f, m), x);
      SumTakeOut(b, f, m(x));
    }
  }
}
