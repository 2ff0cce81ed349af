/** Shared vocabulary: optional values, duplicate-free sequences, and sums over finite sets. */
module Common {

  datatype Option<+T> = None | Some(value: T)
  datatype Result<+T, +E> = Success(value: T) | Failure(error: E)

  function Elements<T>(s: seq<T>): set<T> {
    set x | x in s
  }

  predicate IsIndex(i: int, n: nat) { 0 <= i < n }

  function Indices(n: nat): set<int> {
    set i | 0 <= i < n && IsIndex(i, n)
  }

  ghost predicate Distinct<T>(s: seq<T>) {
    forall i, j :: 0 <= i < j < |s| ==> s[i] != s[j]
  }

  lemma {:induction false} DistinctCardinality<T>(s: seq<T>)
    requires Distinct(s)
    ensures |Elements(s)| == |s|
  {
    if s != [] {
      var front, last := s[..|s| - 1], s[|s| - 1];
      DistinctCardinality(front);
      assert Elements(s) == Elements(front) + {last};
    }
  }

  lemma {:induction false} DistinctIffMultiplicityOne<T>(s: seq<T>)
    ensures Distinct(s) <==> forall x :: x in s ==> multiset(s)[x] == 1
  {
    if s != [] {
      var front, last := s[..|s| - 1], s[|s| - 1];
      DistinctIffMultiplicityOne(front);
      assert s == front + [last];
      assert multiset(s) == multiset(front) + multiset{last};
      if Distinct(s) {
        assert Distinct(front);
        assert last !in front;
        forall x | x in s ensures multiset(s)[x] == 1 {
          if x != last { assert x in front; }
        }
      }
      if forall x :: x in s ==> multiset(s)[x] == 1 {
        assert multiset(s)[last] == 1;
        assert multiset(front)[last] == 0;
        assert last !in front;
        forall x | x in front ensures multiset(front)[x] == 1 { assert x in s; assert multiset(s)[x] == 1; }
      }
    }
  }

  lemma PermutationKeepsDistinct<T>(a: seq<T>, b: seq<T>)
    requires Distinct(a) && multiset(a) == multiset(b)
    ensures Distinct(b) && Elements(a) == Elements(b)
  {
    DistinctIffMultiplicityOne(a);
    DistinctIffMultiplicityOne(b);
    forall x ensures x in a <==> x in b {
      assert x in a <==> x in multiset(a);
      assert x in b <==> x in multiset(b);
    }
  }

  lemma SomeElement<T>(s: set<T>) returns (x: T)
    requires s != {}
    ensures x in s
  {
    x :| x in s;
  }

  lemma SubsetCardinality<T>(a: set<T>, b: set<T>)
    requires a <= b
    ensures |a| <= |b| && (|a| == |b| ==> a == b)
  {
    assert b == a + (b - a);
    assert |b| == |a| + |b - a|;
  }

  /** Two duplicate-free sequences of one length, one inside the other, are permutations of each other. */
  lemma DistinctPigeonhole<T>(a: seq<T>, b: seq<T>)
    requires Distinct(a) && Distinct(b) && |a| == |b| && Elements(a) <= Elements(b)
    ensures multiset(a) == multiset(b)
  {
    DistinctCardinality(a);
    DistinctCardinality(b);
    SubsetCardinality(Elements(a), Elements(b));
    DistinctIffMultiplicityOne(a);
    DistinctIffMultiplicityOne(b);
    forall x ensures multiset(a)[x] == multiset(b)[x] {
      assert x in a <==> x in Elements(a);
      assert x in b <==> x in Elements(b);
    }
  }

  lemma {:induction false} ListOf<T>(s: set<T>) returns (list: seq<T>)
    ensures Elements(list) == s && |list| == |s|
    decreases |s|
  {
    if s == {} {
      list := [];
    } else {
      var x :| x in s;
      var rest := ListOf(s - {x});
      list := rest + [x];
      assert Elements(list) == Elements(rest) + {x};
    }
  }

  function Image<K, M(==)>(s: set<K>, f: K -> M): set<M> {
    set k | k in s :: f(k)
  }

  lemma {:induction false} ImageSize<K, M>(s: set<K>, f: K -> M)
    ensures |Image(s, f)| <= |s|
    decreases |s|
  {
    if s == {} {
      assert Image(s, f) == {};
    } else {
      var k :| k in s;
      ImageSize(s - {k}, f);
      assert Image(s, f) == Image(s - {k}, f) + {f(k)};
    }
  }

  // ---- sums over finite sets ----

  ghost function Sum<T>(s: set<T>, f: T -> int): int {
    if s == {} then 0 else
      var x :| x in s;
      f(x) + Sum(s - {x}, f)
  }

  lemma {:induction false} SumRemove<T>(s: set<T>, f: T -> int, x: T)
    requires x in s
    ensures Sum(s, f) == f(x) + Sum(s - {x}, f)
    decreases |s|
  {
    var y :| y in s && Sum(s, f) == f(y) + Sum(s - {y}, f);
    if y != x {
      SumRemove(s - {y}, f, x);
      SumRemove(s - {x}, f, y);
      assert s - {y} - {x} == s - {x} - {y};
    }
  }

  lemma {:induction false} SumUnion<T>(a: set<T>, b: set<T>, f: T -> int)
    requires a !! b
    ensures Sum(a + b, f) == Sum(a, f) + Sum(b, f)
    decreases |a|
  {
    if a == {} {
      assert a + b == b;
    } else {
      var x :| x in a;
      SumRemove(a, f, x);
      SumRemove(a + b, f, x);
      assert a + b - {x} == (a - {x}) + b;
      SumUnion(a - {x}, b, f);
    }
  }

  lemma {:induction false} SumCongruent<T>(s: set<T>, f: T -> int, g: T -> int)
    requires forall x :: x in s ==> f(x) == g(x)
    ensures Sum(s, f) == Sum(s, g)
    decreases |s|
  {
    if s != {} {
      var x :| x in s;
      SumRemove(s, f, x);
      SumRemove(s, g, x);
      SumCongruent(s - {x}, f, g);
    }
  }

  lemma {:induction false} SumConstant<T>(s: set<T>, f: T -> int, c: int)
    requires forall x :: x in s ==> f(x) == c
    ensures Sum(s, f) == c * |s|
    decreases |s|
  {
    if s != {} {
      var x :| x in s;
      SumRemove(s, f, x);
      SumConstant(s - {x}, f, c);
    }
  }

  /** The elements that belong to one class. */
  function ClassOf<K, M(==)>(s: set<K>, owner: K -> M, m: M): set<K> {
    set k | k in s && owner(k) == m
  }

  ghost function ClassSum<K, M>(s: set<K>, owner: K -> M, f: K -> int): M -> int {
    m => Sum(ClassOf(s, owner, m), f)
  }

  function InClasses<K, M(==)>(s: set<K>, owner: K -> M, classes: set<M>): set<K> {
    set k | k in s && owner(k) in classes
  }

  /** Exchange of summation: summing class by class is summing over all elements of the classes. */
  lemma {:induction false} SumByClass<K, M>(s: set<K>, owner: K -> M, f: K -> int, classes: set<M>)
    ensures Sum(classes, ClassSum(s, owner, f)) == Sum(InClasses(s, owner, classes), f)
    decreases |classes|
  {
    if classes == {} {
      assert InClasses(s, owner, classes) == {};
    } else {
      var m :| m in classes;
      var one, rest := ClassOf(s, owner, m), InClasses(s, owner, classes - {m});
      assert InClasses(s, owner, classes) == one + rest && one !! rest;
      hide ClassOf, InClasses;
      SumRemove(classes, ClassSum(s, owner, f), m);
      SumByClass(s, owner, f, classes - {m});
      SumUnion(one, rest, f);
    }
  }

  /** A set split into classes of at most c elements each has at most c elements per class. */
  lemma {:induction false} ClassesBound<K, M>(s: set<K>, owner: K -> M, classes: set<M>, c: nat)
    requires forall k :: k in s ==> owner(k) in classes
    requires forall m :: m in classes ==> |ClassOf(s, owner, m)| <= c
    ensures |s| <= c * |classes|
    decreases |classes|
  {
    if classes == {} {
      assert s == {};
    } else {
      var m :| m in classes;
      var one, rest, others := ClassOf(s, owner, m), s - ClassOf(s, owner, m), classes - {m};
      forall n | n in others ensures |ClassOf(rest, owner, n)| <= c {
        assert ClassOf(rest, owner, n) == ClassOf(s, owner, n);
      }
      assert forall k :: k in rest ==> owner(k) in others;
      assert |s| == |one| + |rest| && |classes| == |others| + 1;
      hide ClassOf;
      ClassesBound(rest, owner, others, c);
      assert c * |classes| == c * |others| + c;
    }
  }

  lemma {:induction false} SumMinus<T>(s: set<T>, f: T -> int, g: T -> int, h: T -> int)
    requires forall x :: x in s ==> h(x) == f(x) - g(x)
    ensures Sum(s, h) == Sum(s, f) - Sum(s, g)
    decreases |s|
  {
    if s != {} {
      var x :| x in s;
      SumRemove(s, f, x);
      SumRemove(s, g, x);
      SumRemove(s, h, x);
      SumMinus(s - {x}, f, g, h);
    }
  }

  lemma {:induction false} SumOfNonNegatives<T>(s: set<T>, f: T -> int)
    requires forall x :: x in s ==> f(x) >= 0
    ensures Sum(s, f) >= 0 && (Sum(s, f) == 0 <==> forall x :: x in s ==> f(x) == 0)
    decreases |s|
  {
    if s != {} {
      var x :| x in s;
      SumRemove(s, f, x);
      SumOfNonNegatives(s - {x}, f);
      if Sum(s, f) == 0 {
        forall y | y in s ensures f(y) == 0 { assert y == x || y in s - {x}; }
      }
    }
  }

  function Constant<T>(c: int): T -> int { (x: T) => c }

  /** Lowering one term, and raising none, lowers the sum. */
  lemma {:induction false} SumDrops<T>(s: set<T>, f: T -> int, g: T -> int, strict: set<T>)
    requires strict <= s && (forall x :: x in s ==> g(x) <= f(x)) && forall x :: x in strict ==> g(x) < f(x)
    ensures Sum(s, g) <= Sum(s, f) && (strict != {} ==> Sum(s, g) < Sum(s, f))
    decreases |s|
  {
    if s != {} {
      var x :| x in s && (strict != {} ==> x in strict);
      SumRemove(s, f, x);
      SumRemove(s, g, x);
      SumDrops(s - {x}, f, g, strict - {x});
    }
  }

  /** A reduce over a collection: adds f up, one element after the other. */
  method AddUp<K(==)>(s: set<K>, f: K -> int) returns (sum: int)
    ensures sum == Sum(s, f)
  {
    sum := 0;
    var todo := s;
    while todo != {}
      invariant todo <= s && sum + Sum(todo, f) == Sum(s, f)
    {
      var x :| x in todo;
      SumRemove(todo, f, x);
      sum := sum + f(x);
      todo := todo - {x};
    }
  }
}
