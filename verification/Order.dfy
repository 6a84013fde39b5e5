/**
 Three-way comparison, the shape of Rust's `Ord`: negative, zero or positive.
 */
module Order {

  /** `cmp` orders all of `T`: zero only for equal values, antisymmetric, transitive. */
  ghost predicate TotalOrder<T(!new)>(cmp: (T, T) -> int) {
    && (forall a, b :: cmp(a, b) == 0 <==> a == b)
    && (forall a, b :: cmp(a, b) < 0 <==> cmp(b, a) > 0)
    && (forall a, b, c :: cmp(a, b) <= 0 && cmp(b, c) <= 0 ==> cmp(a, c) <= 0)
  }

  function CompareInt(a: int, b: int): int { if a < b then -1 else if a > b then 1 else 0 }

  function CompareChar(a: char, b: char): int { CompareInt(a as int, b as int) }

  /** Lexicographic order; a proper prefix is less. */
  function CompareSeq<T>(cmp: (T, T) -> int, a: seq<T>, b: seq<T>): int {
    if a == [] then (if b == [] then 0 else -1)
    else if b == [] then 1
    else if cmp(a[0], b[0]) != 0 then cmp(a[0], b[0])
    else CompareSeq(cmp, a[1..], b[1..])
  }

  lemma {:induction false} SeqEqual<T(!new)>(cmp: (T, T) -> int, a: seq<T>, b: seq<T>)
    requires TotalOrder(cmp)
    ensures CompareSeq(cmp, a, b) == 0 <==> a == b
  {
    if a != [] && b != [] {
      SeqEqual(cmp, a[1..], b[1..]);
      assert a == [a[0]] + a[1..] && b == [b[0]] + b[1..];
    }
  }

  lemma {:induction false} SeqAntisymmetric<T(!new)>(cmp: (T, T) -> int, a: seq<T>, b: seq<T>)
    requires TotalOrder(cmp)
    ensures CompareSeq(cmp, a, b) < 0 <==> CompareSeq(cmp, b, a) > 0
  {
    if a != [] && b != [] {
      SeqAntisymmetric(cmp, a[1..], b[1..]);
    }
  }

  lemma {:induction false} SeqTransitive<T(!new)>(cmp: (T, T) -> int, a: seq<T>, b: seq<T>, c: seq<T>)
    requires TotalOrder(cmp)
    requires CompareSeq(cmp, a, b) <= 0 && CompareSeq(cmp, b, c) <= 0
    ensures CompareSeq(cmp, a, c) <= 0
  {
    if a != [] && b != [] && c != [] {
      if cmp(a[0], b[0]) == 0 && cmp(b[0], c[0]) == 0 {
        SeqTransitive(cmp, a[1..], b[1..], c[1..]);
      } else {
        assert cmp(a[0], b[0]) <= 0 && cmp(b[0], c[0]) <= 0;
        assert cmp(a[0], c[0]) < 0;
      }
    }
  }

  /** Sequences over a total order are totally ordered. */
  lemma SeqTotalOrder<T(!new)>(cmp: (T, T) -> int)
    requires TotalOrder(cmp)
    ensures TotalOrder((a: seq<T>, b: seq<T>) => CompareSeq(cmp, a, b))
  {
    forall a: seq<T>, b: seq<T>
      ensures CompareSeq(cmp, a, b) == 0 <==> a == b
      ensures CompareSeq(cmp, a, b) < 0 <==> CompareSeq(cmp, b, a) > 0
    {
      SeqEqual(cmp, a, b);
      SeqAntisymmetric(cmp, a, b);
    }
    forall a: seq<T>, b: seq<T>, c: seq<T> | CompareSeq(cmp, a, b) <= 0 && CompareSeq(cmp, b, c) <= 0
      ensures CompareSeq(cmp, a, c) <= 0
    {
      SeqTransitive(cmp, a, b, c);
    }
  }

  /** Rust compares strings by their UTF-8 bytes, which orders them by code points. */
  function CompareString(a: string, b: string): int { CompareSeq(CompareChar, a, b) }

  lemma StringTotalOrder()
    ensures TotalOrder(CompareString)
  {
    assert TotalOrder(CompareChar);
    SeqTotalOrder(CompareChar);
    var f := (a: seq<char>, b: seq<char>) => CompareSeq(CompareChar, a, b);
    assert forall a: string, b: string :: CompareString(a, b) == f(a, b);
  }

  // ---- Stable sorting, as Rust's `sort_by` ----

  /** `cmp` compares the elements of `all` consistently, though equal-comparing elements may differ. */
  ghost predicate Consistent<T(!new)>(cmp: (T, T) -> int, all: seq<T>) {
    && (forall a, b :: a in all && b in all ==> (cmp(a, b) < 0 <==> cmp(b, a) > 0))
    && (forall a, b, c :: a in all && b in all && c in all && cmp(a, b) <= 0 && cmp(b, c) <= 0 ==> cmp(a, c) <= 0)
  }

  ghost predicate Below<T(!new)>(cmp: (T, T) -> int, x: T, s: seq<T>) {
    forall y :: y in s ==> cmp(x, y) <= 0
  }

  ghost predicate Ascending<T(!new)>(cmp: (T, T) -> int, s: seq<T>) {
    s != [] ==> Below(cmp, s[0], s[1..]) && Ascending(cmp, s[1..])
  }

  lemma {:induction false} AscendingAt<T(!new)>(cmp: (T, T) -> int, s: seq<T>, i: nat, j: nat)
    requires Ascending(cmp, s) && i < j < |s|
    ensures cmp(s[i], s[j]) <= 0
  {
    if i == 0 {
      assert s[j] == s[1..][j - 1];
    } else {
      AscendingAt(cmp, s[1..], i - 1, j - 1);
    }
  }

  lemma ConsistentPart<T(!new)>(cmp: (T, T) -> int, all: seq<T>, part: seq<T>)
    requires Consistent(cmp, all) && forall y :: y in part ==> y in all
    ensures Consistent(cmp, part)
  {}

  /** The elements of `s` that compare equal to `x`, in order. */
  function Ties<T>(cmp: (T, T) -> int, x: T, s: seq<T>): seq<T> {
    if s == [] then [] else (if cmp(x, s[0]) == 0 then [s[0]] else []) + Ties(cmp, x, s[1..])
  }

  function Insert<T>(cmp: (T, T) -> int, x: T, s: seq<T>): seq<T> {
    if s == [] || cmp(x, s[0]) <= 0 then [x] + s else [s[0]] + Insert(cmp, x, s[1..])
  }

  function StableSort<T>(cmp: (T, T) -> int, s: seq<T>): seq<T> {
    if s == [] then [] else Insert(cmp, s[0], StableSort(cmp, s[1..]))
  }

  lemma {:induction false} InsertPermutes<T>(cmp: (T, T) -> int, x: T, s: seq<T>)
    ensures multiset(Insert(cmp, x, s)) == multiset([x]) + multiset(s)
  {
    if s == [] || cmp(x, s[0]) <= 0 {
    } else {
      InsertPermutes(cmp, x, s[1..]);
      assert s == [s[0]] + s[1..];
    }
  }

  lemma {:induction false} InsertMembers<T>(cmp: (T, T) -> int, x: T, s: seq<T>)
    ensures forall y :: y in Insert(cmp, x, s) <==> y == x || y in s
  {
    if s == [] || cmp(x, s[0]) <= 0 {
    } else {
      InsertMembers(cmp, x, s[1..]);
      assert s == [s[0]] + s[1..];
    }
  }

  /** Sorting permutes, whatever the comparison. */
  lemma {:induction false} SortPermutes<T>(cmp: (T, T) -> int, s: seq<T>)
    ensures multiset(StableSort(cmp, s)) == multiset(s) && |StableSort(cmp, s)| == |s|
    ensures forall x :: x in StableSort(cmp, s) <==> x in s
  {
    if s == [] {
    } else {
      SortPermutes(cmp, s[1..]);
      InsertPermutes(cmp, s[0], StableSort(cmp, s[1..]));
      assert s == [s[0]] + s[1..];
    }
    assert |multiset(StableSort(cmp, s))| == |multiset(s)|;
    assert forall x :: x in StableSort(cmp, s) <==> x in multiset(StableSort(cmp, s));
  }

  lemma {:induction false} InsertAscends<T(!new)>(cmp: (T, T) -> int, x: T, s: seq<T>)
    requires Consistent(cmp, [x] + s) && Ascending(cmp, s)
    ensures Ascending(cmp, Insert(cmp, x, s))
  {
    if s != [] {
      var all := [x] + s;
      assert x in all && s[0] in all && forall y :: y in s[1..] ==> y in all;
      assert forall y :: y in s ==> y == s[0] || y in s[1..];
      if cmp(x, s[0]) <= 0 {
        assert ([x] + s)[1..] == s;
      } else {
        ConsistentPart(cmp, all, [x] + s[1..]);
        InsertAscends(cmp, x, s[1..]);
        InsertMembers(cmp, x, s[1..]);
        assert ([s[0]] + Insert(cmp, x, s[1..]))[1..] == Insert(cmp, x, s[1..]);
      }
    } else {
      assert [x][1..] == [];
    }
  }

  lemma {:induction false} InsertKeepsTies<T(!new)>(cmp: (T, T) -> int, x: T, s: seq<T>, c: T)
    requires Consistent(cmp, [c, x] + s)
    ensures Ties(cmp, c, Insert(cmp, x, s)) == Ties(cmp, c, [x] + s)
  {
    if s == [] || cmp(x, s[0]) <= 0 {
    } else {
      var all := [c, x] + s;
      var rest := Insert(cmp, x, s[1..]);
      assert c in all && x in all && s[0] in all;
      assert !(cmp(c, x) == 0 && cmp(c, s[0]) == 0);
      ConsistentPart(cmp, all, [c, x] + s[1..]);
      InsertKeepsTies(cmp, x, s[1..], c);
      hide Consistent;
      assert ([s[0]] + rest)[1..] == rest && ([x] + s)[1..] == s && ([x] + s[1..])[1..] == s[1..];
    }
  }

  lemma {:induction false} SortAscends<T(!new)>(cmp: (T, T) -> int, s: seq<T>)
    requires Consistent(cmp, s)
    ensures Ascending(cmp, StableSort(cmp, s))
  {
    if s != [] {
      SortPermutes(cmp, s[1..]);
      ConsistentPart(cmp, s, s[1..]);
      ConsistentPart(cmp, s, [s[0]] + StableSort(cmp, s[1..]));
      hide Consistent;
      SortAscends(cmp, s[1..]);
      InsertAscends(cmp, s[0], StableSort(cmp, s[1..]));
    }
  }

  /** Elements that compare equal stay in their order. */
  lemma {:induction false} SortKeepsTies<T(!new)>(cmp: (T, T) -> int, s: seq<T>, c: T)
    requires Consistent(cmp, [c] + s)
    ensures Ties(cmp, c, StableSort(cmp, s)) == Ties(cmp, c, s)
  {
    if s != [] {
      var rest := StableSort(cmp, s[1..]);
      SortPermutes(cmp, s[1..]);
      ConsistentPart(cmp, [c] + s, [c] + s[1..]);
      ConsistentPart(cmp, [c] + s, [c, s[0]] + rest);
      hide Consistent;
      SortKeepsTies(cmp, s[1..], c);
      InsertKeepsTies(cmp, s[0], rest, c);
      assert ([s[0]] + rest)[1..] == rest;
    }
  }

  /** The first of several ties is the one listed first. */
  lemma {:induction false} FirstTie<T(!new)>(cmp: (T, T) -> int, x: T, s: seq<T>) returns (k: nat)
    requires exists y :: y in s && cmp(x, y) == 0
    ensures k < |s| && cmp(x, s[k]) == 0 && Ties(cmp, x, s) != [] && Ties(cmp, x, s)[0] == s[k]
    ensures forall j :: 0 <= j < k ==> cmp(x, s[j]) != 0
  {
    if cmp(x, s[0]) == 0 {
      k := 0;
    } else {
      var y :| y in s && cmp(x, y) == 0;
      assert y in s[1..] by {
        var i :| 0 <= i < |s| && s[i] == y;
        assert s[1..][i - 1] == y;
      }
      k := FirstTie(cmp, x, s[1..]);
      k := k + 1;
    }
  }

  /** What a stable sort puts first: a least element, the first listed of its equals. */
  lemma SortedHead<T(!new)>(cmp: (T, T) -> int, s: seq<T>) returns (k: nat)
    requires Consistent(cmp, s) && s != []
    ensures k < |s| && |StableSort(cmp, s)| == |s| && StableSort(cmp, s)[0] == s[k]
    ensures forall j :: 0 <= j < |s| ==> cmp(s[k], s[j]) <= 0 && (j < k ==> cmp(s[k], s[j]) < 0)
  {
    hide Insert, StableSort;
    SortPermutes(cmp, s);
    SortAscends(cmp, s);
    var sorted := StableSort(cmp, s);
    var head := sorted[0];
    assert head in s && cmp(head, head) == 0;
    ConsistentPart(cmp, s, [head] + s);
    SortKeepsTies(cmp, s, head);
    k := FirstTie(cmp, head, s);
    assert Ties(cmp, head, sorted)[0] == head;
    forall j | 0 <= j < |s|
      ensures cmp(head, s[j]) <= 0
    {
      assert s[j] in sorted;
      assert s[j] == head || s[j] in sorted[1..];
    }
  }
}
