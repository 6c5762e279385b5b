/** Byte strings in the order of `strcmp`. */
module CStrings {

  type Byte = b: int | 0 <= b < 256

  /** The bytes of a C string before its terminator. */
  type Str = seq<Byte>

  /** The sign of `strcmp(a, b)`; bytes compare as `unsigned char`. */
  function StrCmp(a: Str, b: Str): int {
    if a == [] && b == [] then 0
    else if a == [] then -1
    else if b == [] then 1
    else if a[0] != b[0] then a[0] - b[0]
    else StrCmp(a[1..], b[1..])
  }

  predicate Le(a: Str, b: Str) {
    StrCmp(a, b) <= 0
  }

  predicate Lt(a: Str, b: Str) {
    StrCmp(a, b) < 0
  }

  lemma {:induction false} StrCmpAntisymmetric(a: Str, b: Str)
    ensures StrCmp(a, b) == -StrCmp(b, a)
    ensures StrCmp(a, b) == 0 <==> a == b
  {
    if a == [] || b == [] {
    } else {
      StrCmpAntisymmetric(a[1..], b[1..]);
      assert a == [a[0]] + a[1..] && b == [b[0]] + b[1..];
    }
  }

  /** What the sign means: at the first difference, `a` ends or has the smaller byte. */
  lemma {:induction false} StrCmpMeans(a: Str, b: Str)
    ensures StrCmp(a, b) < 0 <==>
      exists k: nat :: k <= |a| && k <= |b| && a[..k] == b[..k] &&
        ((k == |a| && k < |b|) || (k < |a| && k < |b| && a[k] < b[k]))
  {
    if a == [] || b == [] || a[0] != b[0] {
      if StrCmp(a, b) < 0 {
        assert a[..0] == b[..0];
      }
      forall k: nat | 0 < k <= |a| && k <= |b|
        ensures a[..k] != b[..k]
      {
        assert a[..k][0] == a[0] && b[..k][0] == b[0];
      }
    } else {
      var a', b' := a[1..], b[1..];
      StrCmpMeans(a', b');
      if StrCmp(a, b) < 0 {
        var k: nat :| k <= |a'| && k <= |b'| && a'[..k] == b'[..k] &&
          ((k == |a'| && k < |b'|) || (k < |a'| && k < |b'| && a'[k] < b'[k]));
        assert a[..k + 1] == [a[0]] + a'[..k] && b[..k + 1] == [b[0]] + b'[..k];
      }
      forall k: nat | k <= |a| && k <= |b| && a[..k] == b[..k] &&
        ((k == |a| && k < |b|) || (k < |a| && k < |b| && a[k] < b[k]))
        ensures StrCmp(a', b') < 0
      {
        assert a'[..k - 1] == a[..k][1..] && b'[..k - 1] == b[..k][1..];
      }
    }
  }

  lemma {:induction false} LeTransitive(a: Str, b: Str, c: Str)
    requires Le(a, b) && Le(b, c)
    ensures Le(a, c)
    ensures Lt(a, b) || Lt(b, c) ==> Lt(a, c)
  {
    if a == [] || b == [] || c == [] || !(a[0] == b[0] == c[0]) {
    } else {
      LeTransitive(a[1..], b[1..], c[1..]);
    }
  }
}

/** The abstract algorithm behind both sorts of the repository: take the first
    maximum out of what is left and put it in front of what is done. */
module Selection {
  import opened CStrings

  predicate IsFirstMax<T>(s: seq<T>, key: T -> Str, m: nat) {
    && m < |s|
    && (forall i :: 0 <= i < |s| ==> Le(key(s[i]), key(s[m])))
    && (forall i :: 0 <= i < m ==> Lt(key(s[i]), key(s[m])))
  }

  /** Extending the scan by one element. */
  lemma FirstMaxExtends<T>(s: seq<T>, key: T -> Str, i: nat, m: nat)
    requires i < |s| && IsFirstMax(s[..i], key, m)
    ensures IsFirstMax(s[..i + 1], key, if StrCmp(key(s[i]), key(s[m])) > 0 then i else m)
  {
    StrCmpAntisymmetric(key(s[i]), key(s[m]));
    StrCmpAntisymmetric(key(s[i]), key(s[i]));
    forall j | 0 <= j < i
      ensures Le(key(s[j]), key(s[m]))
      ensures Lt(key(s[m]), key(s[i])) ==> Lt(key(s[j]), key(s[i]))
    {
      assert s[..i][j] == s[j];
      if Lt(key(s[m]), key(s[i])) {
        LeTransitive(key(s[j]), key(s[m]), key(s[i]));
      }
    }
    forall j | 0 <= j < m
      ensures Lt(key(s[j]), key(s[m]))
    {
      assert s[..i][j] == s[j];
    }
  }

  function FirstMax<T>(s: seq<T>, key: T -> Str): (m: nat)
    requires s != []
    ensures IsFirstMax(s, key, m)
  {
    StrCmpAntisymmetric(key(s[0]), key(s[0]));
    if |s| == 1 then 0
    else
      var i := |s| - 1;
      var m := FirstMax(s[..i], key);
      FirstMaxExtends(s, key, i, m);
      assert s[..i + 1] == s;
      if StrCmp(key(s[i]), key(s[m])) > 0 then i else m
  }

  lemma {:induction false} FirstMaxUnique<T>(s: seq<T>, key: T -> Str, m: nat)
    requires IsFirstMax(s, key, m)
    ensures s != [] && FirstMax(s, key) == m
  {
    var f := FirstMax(s, key);
    StrCmpAntisymmetric(key(s[m]), key(s[f]));
  }

  function Without<T>(s: seq<T>, m: nat): seq<T>
    requires m < |s|
  {
    s[..m] + s[m + 1..]
  }

  function SelectSort<T>(s: seq<T>, key: T -> Str): seq<T>
    decreases |s|
  {
    if s == [] then []
    else var m := FirstMax(s, key); SelectSort(Without(s, m), key) + [s[m]]
  }

  /** One round of the algorithm, wherever the first maximum is known to be. */
  lemma {:induction false} SelectSortTakes<T>(s: seq<T>, key: T -> Str, m: nat)
    requires IsFirstMax(s, key, m)
    ensures SelectSort(s, key) == SelectSort(Without(s, m), key) + [s[m]]
  {
    FirstMaxUnique(s, key, m);
  }

  lemma WithoutMiddle<T>(before: seq<T>, x: T, after: seq<T>)
    ensures var s := before + ([x] + after);
      |before| < |s| && s[|before|] == x && Without(s, |before|) == before + after
  {
  }

  function Reverse<T>(s: seq<T>): seq<T> {
    if s == [] then [] else Reverse(s[1..]) + [s[0]]
  }

  /** The elements with key `k`, in order. */
  function OfKey<T>(s: seq<T>, key: T -> Str, k: Str): seq<T> {
    if s == [] then []
    else (if key(s[0]) == k then [s[0]] else []) + OfKey(s[1..], key, k)
  }

  predicate Sorted<T>(s: seq<T>, key: T -> Str) {
    forall i, j :: 0 <= i < j < |s| ==> Le(key(s[i]), key(s[j]))
  }

  // ------------------------------------------------------- list arithmetic

  lemma {:induction false} OfKeyAppend<T>(s: seq<T>, t: seq<T>, key: T -> Str, k: Str)
    ensures OfKey(s + t, key, k) == OfKey(s, key, k) + OfKey(t, key, k)
  {
    if s == [] {
      assert s + t == t;
    } else {
      OfKeyAppend(s[1..], t, key, k);
      assert (s + t)[1..] == s[1..] + t;
      var first := if key(s[0]) == k then [s[0]] else [];
      assert OfKey(s, key, k) == first + OfKey(s[1..], key, k);
      assert first + (OfKey(s[1..], key, k) + OfKey(t, key, k)) == (first + OfKey(s[1..], key, k)) + OfKey(t, key, k);
    }
  }

  lemma {:induction false} OfKeyOne<T>(x: T, s: seq<T>, key: T -> Str, k: Str)
    ensures OfKey([x] + s, key, k) == (if key(x) == k then [x] else []) + OfKey(s, key, k)
    ensures key(x) != k ==> OfKey([x] + s, key, k) == OfKey(s, key, k)
  {
    assert ([x] + s)[1..] == s;
    assert [] + OfKey(s, key, k) == OfKey(s, key, k);
  }

  lemma {:induction false} OfKeyEmpty<T>(s: seq<T>, key: T -> Str, k: Str)
    ensures OfKey(s, key, k) == [] <==> forall i :: 0 <= i < |s| ==> key(s[i]) != k
  {
    if s == [] {
    } else {
      OfKeyEmpty(s[1..], key, k);
      assert forall i :: 1 <= i < |s| ==> s[i] == s[1..][i - 1];
    }
  }

  lemma {:induction false} ReverseAppend<T>(s: seq<T>, t: seq<T>)
    ensures Reverse(s + t) == Reverse(t) + Reverse(s)
  {
    if s == [] {
      assert s + t == t;
    } else {
      ReverseAppend(s[1..], t);
      assert (s + t)[1..] == s[1..] + t;
    }
  }

  lemma {:induction false} ReverseTwice<T>(s: seq<T>)
    ensures Reverse(Reverse(s)) == s && |Reverse(s)| == |s|
  {
    if s == [] {
    } else {
      ReverseTwice(s[1..]);
      ReverseAppend(Reverse(s[1..]), [s[0]]);
      assert Reverse([s[0]]) == [s[0]];
      assert s == [s[0]] + s[1..];
    }
  }

  lemma {:induction false} OfKeyReverse<T>(s: seq<T>, key: T -> Str, k: Str)
    ensures OfKey(Reverse(s), key, k) == Reverse(OfKey(s, key, k))
  {
    if s == [] {
    } else {
      OfKeyReverse(s[1..], key, k);
      OfKeyAppend(Reverse(s[1..]), [s[0]], key, k);
      ReverseAppend(if key(s[0]) == k then [s[0]] else [], OfKey(s[1..], key, k));
    }
  }

  // --------------------------------------------------------- what it computes

  lemma {:induction false} SelectSortPermutes<T>(s: seq<T>, key: T -> Str)
    ensures multiset(SelectSort(s, key)) == multiset(s)
    decreases |s|
  {
    if s == [] {
    } else {
      var m := FirstMax(s, key);
      SelectSortPermutes(Without(s, m), key);
      assert s == s[..m] + [s[m]] + s[m + 1..];
    }
  }

  lemma {:induction false} SelectSortSorted<T>(s: seq<T>, key: T -> Str)
    ensures Sorted(SelectSort(s, key), key)
    decreases |s|
  {
    if s == [] {
    } else {
      var m := FirstMax(s, key);
      var rest := Without(s, m);
      SelectSortSorted(rest, key);
      SelectSortPermutes(rest, key);
      var r := SelectSort(rest, key);
      forall i | 0 <= i < |r|
        ensures Le(key(r[i]), key(s[m]))
      {
        assert r[i] in multiset(r);
        assert r[i] in rest;
      }
    }
  }

  /** The first maximum comes first among the elements with its key. */
  lemma {:induction false} FirstMaxComesFirst<T>(s: seq<T>, key: T -> Str, m: nat, k: Str)
    requires IsFirstMax(s, key, m)
    ensures OfKey(s, key, k) == (if key(s[m]) == k then [s[m]] else []) + OfKey(Without(s, m), key, k)
  {
    var x, before, after := s[m], s[..m], s[m + 1..];
    var first := if key(x) == k then [x] else [];
    OfKeyAppend(before, after, key, k);
    OfKeyOne(x, after, key, k);
    OfKeyAppend(before, [x] + after, key, k);
    assert s == before + ([x] + after);
    if key(x) == k {
      StrCmpAntisymmetric(k, k);
      assert forall i :: 0 <= i < m ==> before[i] == s[i];
      OfKeyEmpty(before, key, k);
      assert OfKey(before, key, k) == [];
    } else {
      assert first + OfKey(Without(s, m), key, k) == OfKey(before, key, k) + OfKey(after, key, k);
    }
  }

  /** The tie law: elements with equal keys come out in reverse input order. */
  lemma {:induction false} SelectSortTies<T>(s: seq<T>, key: T -> Str, k: Str)
    ensures OfKey(SelectSort(s, key), key, k) == Reverse(OfKey(s, key, k))
    decreases |s|
  {
    if s == [] {
    } else {
      var m := FirstMax(s, key);
      var rest, first := Without(s, m), if key(s[m]) == k then [s[m]] else [];
      FirstMaxComesFirst(s, key, m, k);
      SelectSortTies(rest, key, k);
      OfKeyAppend(SelectSort(rest, key), [s[m]], key, k);
      ReverseAppend(first, OfKey(rest, key, k));
      assert Reverse(first) == first == OfKey([s[m]], key, k);
    }
  }

  lemma {:induction false} TailsAgree<T>(s: seq<T>, t: seq<T>, key: T -> Str, k: Str)
    requires s != [] && t != [] && s[0] == t[0] && OfKey(s, key, k) == OfKey(t, key, k)
    ensures OfKey(s[1..], key, k) == OfKey(t[1..], key, k)
  {
    if key(s[0]) == k {
      assert OfKey(s[1..], key, k) == OfKey(s, key, k)[1..];
      assert OfKey(t[1..], key, k) == OfKey(t, key, k)[1..];
    } else {
      assert OfKey(s, key, k) == [] + OfKey(s[1..], key, k) == OfKey(s[1..], key, k);
      assert OfKey(t, key, k) == [] + OfKey(t[1..], key, k) == OfKey(t[1..], key, k);
    }
  }

  /** A sorted sequence is determined by its equal-key subsequences. */
  lemma {:induction false} SortedUnique<T>(s: seq<T>, t: seq<T>, key: T -> Str)
    requires Sorted(s, key) && Sorted(t, key)
    requires forall k :: OfKey(s, key, k) == OfKey(t, key, k)
    ensures s == t
  {
    assert s != [] ==> OfKey(t, key, key(s[0])) == OfKey(s, key, key(s[0])) != [];
    assert t != [] ==> OfKey(s, key, key(t[0])) == OfKey(t, key, key(t[0])) != [];
    if s == [] || t == [] {
    } else {
      HeadIsLeast(s, t, key);
      HeadIsLeast(t, s, key);
      StrCmpAntisymmetric(key(s[0]), key(t[0]));
      var k0 := key(s[0]);
      assert OfKey(s, key, k0)[0] == s[0] && OfKey(t, key, k0)[0] == t[0];
      forall k
        ensures OfKey(s[1..], key, k) == OfKey(t[1..], key, k)
      {
        assert OfKey(s, key, k) == OfKey(t, key, k);
        TailsAgree(s, t, key, k);
      }
      SortedUnique(s[1..], t[1..], key);
      assert s == [s[0]] + s[1..] && t == [t[0]] + t[1..];
    }
  }

  lemma {:induction false} HeadIsLeast<T>(s: seq<T>, t: seq<T>, key: T -> Str)
    requires s != [] && t != [] && Sorted(s, key)
    requires forall k :: OfKey(s, key, k) == OfKey(t, key, k)
    ensures Le(key(s[0]), key(t[0]))
  {
    var k := key(t[0]);
    OfKeyEmpty(s, key, k);
    assert OfKey(t, key, k) != [];
    StrCmpAntisymmetric(k, k);
  }

  // --------------------------------------------- an independent reference sort

  /** Insertion in front of the first element that is not smaller. */
  function Insert<T>(x: T, s: seq<T>, key: T -> Str): seq<T> {
    if s == [] || Le(key(x), key(s[0])) then [x] + s else [s[0]] + Insert(x, s[1..], key)
  }

  /** The stable ascending sort. */
  function StableSort<T>(s: seq<T>, key: T -> Str): seq<T> {
    if s == [] then [] else Insert(s[0], StableSort(s[1..], key), key)
  }

  lemma {:induction false} InsertPermutes<T>(x: T, s: seq<T>, key: T -> Str)
    ensures multiset(Insert(x, s, key)) == multiset{x} + multiset(s)
  {
    if s != [] && !Le(key(x), key(s[0])) {
      InsertPermutes(x, s[1..], key);
      assert s == [s[0]] + s[1..];
    }
  }

  lemma {:induction false} InsertKeepsSorted<T>(x: T, s: seq<T>, key: T -> Str)
    requires Sorted(s, key)
    ensures Sorted(Insert(x, s, key), key)
  {
    if s == [] {
    } else if Le(key(x), key(s[0])) {
      forall i | 0 <= i < |s|
        ensures Le(key(x), key(s[i]))
      {
        if i > 0 {
          LeTransitive(key(x), key(s[0]), key(s[i]));
        }
      }
    } else {
      StrCmpAntisymmetric(key(x), key(s[0]));
      InsertKeepsSorted(x, s[1..], key);
      InsertPermutes(x, s[1..], key);
      var r := Insert(x, s[1..], key);
      forall y | y in r
        ensures Le(key(s[0]), key(y))
      {
        assert y in multiset(r);
      }
    }
  }

  lemma {:induction false} InsertIsStable<T>(x: T, s: seq<T>, key: T -> Str, k: Str)
    ensures OfKey(Insert(x, s, key), key, k) == (if key(x) == k then [x] else []) + OfKey(s, key, k)
  {
    if s == [] || Le(key(x), key(s[0])) {
      OfKeyAppend([x], s, key, k);
    } else {
      StrCmpAntisymmetric(key(x), key(s[0]));
      InsertIsStable(x, s[1..], key, k);
      OfKeyAppend([s[0]], Insert(x, s[1..], key), key, k);
    }
  }

  lemma {:induction false} StableSortIsStable<T>(s: seq<T>, key: T -> Str, k: Str)
    ensures Sorted(StableSort(s, key), key)
    ensures OfKey(StableSort(s, key), key, k) == OfKey(s, key, k)
  {
    if s == [] {
    } else {
      StableSortIsStable(s[1..], key, k);
      InsertKeepsSorted(s[0], StableSort(s[1..], key), key);
      InsertIsStable(s[0], StableSort(s[1..], key), key, k);
    }
  }

  // --------------------------------------------------------------- main results

  /** Selection sort is the stable sort of the reversed input. */
  lemma {:induction false} SelectSortIsStableOnReverse<T>(s: seq<T>, key: T -> Str)
    ensures SelectSort(s, key) == StableSort(Reverse(s), key)
  {
    SelectSortSorted(s, key);
    StableSortIsStable(Reverse(s), key, []);
    forall k
      ensures OfKey(SelectSort(s, key), key, k) == OfKey(StableSort(Reverse(s), key), key, k)
    {
      SelectSortTies(s, key, k);
      StableSortIsStable(Reverse(s), key, k);
      OfKeyReverse(s, key, k);
    }
    SortedUnique(SelectSort(s, key), StableSort(Reverse(s), key), key);
  }

  /** Sorting twice is the stable sort. */
  lemma {:induction false} SelectSortTwice<T>(s: seq<T>, key: T -> Str)
    ensures SelectSort(SelectSort(s, key), key) == StableSort(s, key)
  {
    var once := SelectSort(s, key);
    SelectSortSorted(once, key);
    StableSortIsStable(s, key, []);
    forall k
      ensures OfKey(SelectSort(once, key), key, k) == OfKey(StableSort(s, key), key, k)
    {
      SelectSortTies(s, key, k);
      SelectSortTies(once, key, k);
      StableSortIsStable(s, key, k);
      ReverseTwice(OfKey(s, key, k));
    }
    SortedUnique(SelectSort(once, key), StableSort(s, key), key);
  }

  /** Sorting three times is sorting once. */
  lemma {:induction false} SelectSortThrice<T>(s: seq<T>, key: T -> Str)
    ensures SelectSort(SelectSort(SelectSort(s, key), key), key) == SelectSort(s, key)
  {
    var once := SelectSort(s, key);
    var thrice := SelectSort(SelectSort(once, key), key);
    SelectSortSorted(s, key);
    SelectSortSorted(SelectSort(once, key), key);
    forall k
      ensures OfKey(thrice, key, k) == OfKey(once, key, k)
    {
      SelectSortTies(s, key, k);
      SelectSortTies(once, key, k);
      SelectSortTies(SelectSort(once, key), key, k);
      ReverseTwice(OfKey(s, key, k));
    }
    SortedUnique(thrice, once, key);
  }

  // ------------------------------------------------------ only the keys matter

  predicate Positions(order: seq<int>, n: nat) {
    forall i :: 0 <= i < |order| ==> 0 <= order[i] < n
  }

  /** The elements of `s` at the positions listed by `order`. */
  function Pick<T>(s: seq<T>, order: seq<int>): (r: seq<T>)
    requires Positions(order, |s|)
    ensures |r| == |order| && forall i :: 0 <= i < |r| ==> r[i] == s[order[i]]
  {
    if order == [] then [] else [s[order[0]]] + Pick(s, order[1..])
  }

  function Indices(n: nat): (r: seq<int>)
    ensures |r| == n && (forall i :: 0 <= i < n ==> r[i] == i)
  {
    if n == 0 then [] else Indices(n - 1) + [n - 1]
  }

  function KeyAt(keys: seq<Str>): int -> Str {
    i => if 0 <= i < |keys| then keys[i] else []
  }

  /** The keys of a sequence. */
  function Keys<T>(s: seq<T>, key: T -> Str): (r: seq<Str>)
    ensures |r| == |s| && forall i :: 0 <= i < |s| ==> r[i] == key(s[i])
  {
    if s == [] then [] else [key(s[0])] + Keys(s[1..], key)
  }

  /** The order in which selection sort lists positions, computed from the keys alone. */
  function SelectionOrder(keys: seq<Str>): seq<int> {
    SelectSort(Indices(|keys|), KeyAt(keys))
  }

  lemma {:induction false} PickWithout<T>(s: seq<T>, order: seq<int>, m: nat)
    requires Positions(order, |s|) && m < |order|
    ensures Positions(Without(order, m), |s|) && Without(Pick(s, order), m) == Pick(s, Without(order, m))
  {
    var rest := Without(order, m);
    assert forall i :: 0 <= i < |rest| ==> rest[i] == order[if i < m then i else i + 1];
  }

  /** Positions and the elements they pick have their first maximum at the same place. */
  lemma {:induction false} PickedMaximum<T>(s: seq<T>, key: T -> Str, order: seq<int>)
    requires Positions(order, |s|) && order != []
    ensures FirstMax(order, KeyAt(Keys(s, key))) == FirstMax(Pick(s, order), key)
  {
    var keyAt, picked := KeyAt(Keys(s, key)), Pick(s, order);
    assert forall i :: 0 <= i < |order| ==> keyAt(order[i]) == key(picked[i]);
    FirstMaxUnique(picked, key, FirstMax(order, keyAt));
  }

  lemma {:induction false} PickOneMore<T>(s: seq<T>, order: seq<int>, last: int)
    requires Positions(order, |s|) && 0 <= last < |s|
    ensures Positions(order + [last], |s|) && Pick(s, order + [last]) == Pick(s, order) + [s[last]]
  {
  }

  /** Sorting positions by their keys sorts the elements picked by them. */
  lemma {:induction false} SortPicked<T>(s: seq<T>, key: T -> Str, order: seq<int>)
    requires Positions(order, |s|)
    ensures Positions(SelectSort(order, KeyAt(Keys(s, key))), |s|)
    ensures SelectSort(Pick(s, order), key) == Pick(s, SelectSort(order, KeyAt(Keys(s, key))))
    decreases |order|
  {
    if order == [] {
    } else {
      var m := FirstMax(order, KeyAt(Keys(s, key)));
      PickedMaximum(s, key, order);
      PickWithout(s, order, m);
      var rest := Without(order, m);
      SortPicked(s, key, rest);
      PickOneMore(s, SelectSort(rest, KeyAt(Keys(s, key))), order[m]);
    }
  }

  /** The sorted sequence is the input read in selection order, which lists every position once. */
  lemma {:induction false} SelectSortByOrder<T>(s: seq<T>, key: T -> Str)
    ensures var order := SelectionOrder(Keys(s, key));
      && multiset(order) == multiset(Indices(|s|))
      && Positions(order, |s|)
      && SelectSort(s, key) == Pick(s, order)
  {
    var all, keys := Indices(|s|), Keys(s, key);
    SelectSortPermutes(all, KeyAt(keys));
    SortPicked(s, key, all);
    assert Pick(s, all) == s;
    assert SelectionOrder(keys) == SelectSort(all, KeyAt(keys));
  }
}
