/** Sums over finite sets, independent of the order in which the members are taken. */
module FiniteSums {

  ghost function Sum<T>(s: set<T>, f: T -> int): int {
    if s == {} then 0
    else
      var x :| x in s;
      f(x) + Sum(s - {x}, f)
  }

  lemma {:induction false} SumRemove<T>(s: set<T>, f: T -> int, x: T)
    requires x in s
    ensures Sum(s, f) == f(x) + Sum(s - {x}, f)
  {
    var y :| y in s && Sum(s, f) == f(y) + Sum(s - {y}, f);
    if y != x {
      SumRemove(s - {y}, f, x);
      SumRemove(s - {x}, f, y);
      assert s - {y} - {x} == s - {x} - {y};
    }
  }

  lemma {:induction false} SumSame<T>(s: set<T>, f: T -> int, g: T -> int)
    requires forall x :: x in s ==> f(x) == g(x)
    ensures Sum(s, f) == Sum(s, g)
  {
    if s != {} {
      var x :| x in s;
      SumRemove(s, f, x);
      SumRemove(s, g, x);
      SumSame(s - {x}, f, g);
    }
  }

  lemma {:induction false} SumAdd<T>(s: set<T>, f: T -> int, g: T -> int, h: T -> int)
    requires forall x :: x in s ==> h(x) == f(x) + g(x)
    ensures Sum(s, h) == Sum(s, f) + Sum(s, g)
  {
    if s != {} {
      var x :| x in s;
      SumRemove(s, f, x);
      SumRemove(s, g, x);
      SumRemove(s, h, x);
      SumAdd(s - {x}, f, g, h);
    }
  }

  lemma {:induction false} SumZero<T>(s: set<T>, f: T -> int)
    requires forall x :: x in s ==> f(x) == 0
    ensures Sum(s, f) == 0
  {
    if s != {} {
      var x :| x in s;
      SumRemove(s, f, x);
      SumZero(s - {x}, f);
    }
  }

  lemma {:induction false} SumOnes<T>(s: set<T>)
    ensures Sum(s, x => 1) == |s|
  {
    if s != {} {
      var x :| x in s;
      SumRemove(s, x => 1, x);
      SumOnes(s - {x});
    }
  }

  lemma {:induction false} SumIndicator<T>(s: set<T>, p: T -> bool)
    ensures Sum(s, x => if p(x) then 1 else 0) == |set x | x in s && p(x)|
  {
    var f := x => if p(x) then 1 else 0;
    if s == {} {
      assert (set x | x in s && p(x)) == {};
    } else {
      var x :| x in s;
      SumRemove(s, f, x);
      SumIndicator(s - {x}, p);
      var smaller := set y | y in s - {x} && p(y);
      assert (set y | y in s && p(y)) == if p(x) then smaller + {x} else smaller;
    }
  }

  ghost function Row<A, B>(cols: set<B>, r: (A, B) -> bool, a: A): set<B> {
    set b | b in cols && r(a, b)
  }

  ghost function Column<A, B>(rows: set<A>, r: (A, B) -> bool, b: B): set<A> {
    set a | a in rows && r(a, b)
  }

  lemma SumColumnsRemove<A, B>(rows: set<A>, cols: set<B>, r: (A, B) -> bool, a: A)
    requires a in rows
    ensures Sum(cols, b => |Column(rows, r, b)|) == Sum(cols, b => |Column(rows - {a}, r, b)|) + |Row(cols, r, a)|
  {
    var hit := b => r(a, b);
    forall b | b in cols
      ensures |Column(rows, r, b)| == |Column(rows - {a}, r, b)| + (if hit(b) then 1 else 0)
    {
      var smaller := Column(rows - {a}, r, b);
      assert Column(rows, r, b) == if r(a, b) then smaller + {a} else smaller;
    }
    SumAdd(cols, b => |Column(rows - {a}, r, b)|, b => if hit(b) then 1 else 0, b => |Column(rows, r, b)|);
    SumIndicator(cols, hit);
    assert Row(cols, r, a) == set b | b in cols && hit(b);
  }

  /** Counting the pairs of a relation by rows or by columns gives the same number. */
  lemma {:induction false} DoubleCount<A, B>(rows: set<A>, cols: set<B>, r: (A, B) -> bool)
    ensures Sum(rows, a => |Row(cols, r, a)|) == Sum(cols, b => |Column(rows, r, b)|)
  {
    if rows == {} {
      forall b | b in cols ensures |Column(rows, r, b)| == 0 {
        assert Column(rows, r, b) == {};
      }
      SumZero(cols, b => |Column(rows, r, b)|);
    } else {
      var a0 :| a0 in rows;
      SumRemove(rows, a => |Row(cols, r, a)|, a0);
      DoubleCount(rows - {a0}, cols, r);
      SumColumnsRemove(rows, cols, r, a0);
    }
  }
}
