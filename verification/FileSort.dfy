/** The in-place record sort of cw02/zad1: a flat file of fixed-size records is
    sorted by the first byte of each record, through a cursor. */
module FileSort {
  import opened CStrings
  import opened Selection
  import PersonList

  type Record = seq<Byte>

  /** An open file: its bytes and the cursor of its descriptor. */
  class File {
    var content: seq<Byte>
    var offset: nat

    constructor (bytes: seq<Byte>)
      ensures content == bytes && offset == 0
    {
      content := bytes;
      offset := 0;
    }

    /** `lseek` with SEEK_SET. */
    method Lseek(position: nat)
      modifies this`offset
      ensures offset == position
    {
      offset := position;
    }

    /** `read` returns what is left when that is less than `count`. */
    method Read(count: nat) returns (buffer: seq<Byte>)
      modifies this`offset
      ensures old(offset) + count <= |content| ==>
        buffer == content[old(offset)..old(offset) + count] && offset == old(offset) + count
      ensures |content| < old(offset) + count ==>
        buffer == (if old(offset) < |content| then content[old(offset)..] else []) && offset == old(offset) + |buffer|
    {
      var end := if offset + count <= |content| then offset + count else |content|;
      buffer := if offset <= end then content[offset..end] else [];
      offset := offset + |buffer|;
    }

    /** `write` replaces bytes from the cursor on and may extend the file. */
    method Write(buffer: seq<Byte>)
      requires offset <= |content|
      modifies this
      ensures offset == old(offset) + |buffer|
      ensures content == old(content)[..old(offset)] + buffer +
        if offset <= |old(content)| then old(content)[offset..] else []
    {
      var end := offset + |buffer|;
      content := content[..offset] + buffer + if end <= |content| then content[end..] else [];
      offset := end;
    }
  }

  // ------------------------------------------------------------- record view

  predicate Sized(recs: seq<Record>, size: nat) {
    forall i :: 0 <= i < |recs| ==> |recs[i]| == size
  }

  function Flat(recs: seq<Record>): seq<Byte> {
    if recs == [] then [] else recs[0] + Flat(recs[1..])
  }

  /** The first `count` records of a byte sequence. */
  function Records(bytes: seq<Byte>, size: nat, count: nat): (recs: seq<Record>)
    requires size * count <= |bytes|
    decreases count
  {
    if count == 0 then [] else
      OneMoreRecord(size, count);
      [bytes[..size]] + Records(bytes[size..], size, count - 1)
  }

  lemma OneMoreRecord(size: nat, count: nat)
    requires 0 < count
    ensures size * count == size + size * (count - 1) && size <= size * count
  {
    assert size * (count - 1) >= 0;
  }

  lemma {:induction false} RecordsRoundTrip(bytes: seq<Byte>, size: nat, count: nat)
    requires size * count <= |bytes|
    ensures Sized(Records(bytes, size, count), size) && |Records(bytes, size, count)| == count
    ensures Flat(Records(bytes, size, count)) + bytes[size * count..] == bytes
    decreases count
  {
    if count == 0 {
    } else {
      OneMoreRecord(size, count);
      var rest := bytes[size..];
      var others := Records(rest, size, count - 1);
      RecordsRoundTrip(rest, size, count - 1);
      assert Records(bytes, size, count)[1..] == others;
      TailSplits(bytes, size, size * (count - 1), Flat(others));
    }
  }

  lemma TailSplits(bytes: seq<Byte>, first: nat, others: nat, flat: seq<Byte>)
    requires first + others <= |bytes| && flat + bytes[first..][others..] == bytes[first..]
    ensures (bytes[..first] + flat) + bytes[first + others..] == bytes
  {
    assert bytes[first..][others..] == bytes[first + others..];
    assert (bytes[..first] + flat) + bytes[first + others..] == bytes[..first] + (flat + bytes[first + others..]);
  }

  lemma {:induction false} FlatLength(recs: seq<Record>, size: nat)
    requires Sized(recs, size)
    ensures |Flat(recs)| == size * |recs|
  {
    if recs == [] {
    } else {
      FlatLength(recs[1..], size);
      OneMoreRecord(size, |recs|);
    }
  }

  lemma {:induction false} FlatAppend(a: seq<Record>, b: seq<Record>)
    ensures Flat(a + b) == Flat(a) + Flat(b)
  {
    if a == [] {
      assert a + b == b;
    } else {
      FlatAppend(a[1..], b);
      assert (a + b)[1..] == a[1..] + b;
      assert a[0] + (Flat(a[1..]) + Flat(b)) == (a[0] + Flat(a[1..])) + Flat(b);
    }
  }

  lemma {:induction false} FlatSplit(recs: seq<Record>, size: nat, k: nat)
    requires Sized(recs, size) && k < |recs|
    ensures |Flat(recs[..k])| == size * k
    ensures Flat(recs) == Flat(recs[..k]) + recs[k] + Flat(recs[k + 1..])
  {
    var before, after := recs[..k], recs[k + 1..];
    FlatLength(before, size);
    assert recs == before + ([recs[k]] + after);
    FlatAppend(before, [recs[k]] + after);
    assert ([recs[k]] + after)[1..] == after;
  }

  /** Record `k` occupies the bytes from `size * k` on. */
  lemma {:induction false} FlatAt(recs: seq<Record>, tail: seq<Byte>, size: nat, k: nat)
    requires Sized(recs, size) && k < |recs|
    ensures size * k + size <= |Flat(recs) + tail|
    ensures (Flat(recs) + tail)[size * k..size * k + size] == recs[k]
  {
    FlatSplit(recs, size, k);
  }

  lemma Overwrite(pre: seq<Byte>, mid: seq<Byte>, post: seq<Byte>, tail: seq<Byte>, buffer: seq<Byte>)
    ensures var all := (pre + mid + post) + tail;
      all[..|pre|] + buffer + all[|pre| + |mid|..] == (pre + buffer + post) + tail
  {
    var all := (pre + mid + post) + tail;
    assert all[..|pre|] == pre && all[|pre| + |mid|..] == post + tail;
  }

  lemma FlatReplaced(recs: seq<Record>, size: nat, k: nat, buffer: Record)
    requires Sized(recs, size) && k < |recs| && |buffer| == size
    ensures Flat(recs[k := buffer]) == Flat(recs[..k]) + buffer + Flat(recs[k + 1..])
  {
    FlatSplit(recs[k := buffer], size, k);
    assert recs[k := buffer][..k] == recs[..k] && recs[k := buffer][k + 1..] == recs[k + 1..];
  }

  /** Overwriting those bytes replaces the record. */
  lemma {:induction false} FlatUpdate(recs: seq<Record>, tail: seq<Byte>, size: nat, k: nat, buffer: Record)
    requires Sized(recs, size) && k < |recs| && |buffer| == size
    ensures size * k + size <= |Flat(recs) + tail|
    ensures (Flat(recs) + tail)[..size * k] + buffer + (Flat(recs) + tail)[size * k + size..]
      == Flat(recs[k := buffer]) + tail
  {
    FlatSplit(recs, size, k);
    FlatReplaced(recs, size, k, buffer);
    Overwrite(Flat(recs[..k]), recs[k], Flat(recs[k + 1..]), tail, buffer);
  }

  // ------------------------------------------------------------- what it computes

  /** The key: the first byte as a one-byte string. */
  function FirstByte(r: Record): Str {
    if r == [] then [] else [r[0]]
  }

  function NonZero(recs: seq<Record>): seq<Record> {
    if recs == [] then []
    else if FirstByte(recs[0]) != [0] then [recs[0]] + NonZero(recs[1..])
    else NonZero(recs[1..])
  }

  function Zero(recs: seq<Record>): seq<Record> {
    OfKey(recs, FirstByte, [0])
  }

  /** Non-zero records ascending with ties reversed, then the zero records as they came. */
  function SortedFile(recs: seq<Record>): seq<Record> {
    SelectSort(NonZero(recs), FirstByte) + Zero(recs)
  }

  lemma ByteOrder(a: Record, b: Record)
    requires a != [] && b != []
    ensures Lt(FirstByte(a), FirstByte(b)) <==> a[0] < b[0]
    ensures Le(FirstByte(a), FirstByte(b)) <==> a[0] <= b[0]
    ensures FirstByte(a) == [0] <==> a[0] == 0
  {
    assert FirstByte(a)[1..] == [] == FirstByte(b)[1..];
    assert StrCmp(FirstByte(a), FirstByte(b)) == a[0] as int - b[0] as int;
  }

  lemma {:induction false} NonZeroAppend(a: seq<Record>, b: seq<Record>)
    ensures NonZero(a + b) == NonZero(a) + NonZero(b)
  {
    if a == [] {
      assert a + b == b;
    } else {
      NonZeroAppend(a[1..], b);
      assert (a + b)[1..] == a[1..] + b;
      assert [a[0]] + (NonZero(a[1..]) + NonZero(b)) == ([a[0]] + NonZero(a[1..])) + NonZero(b);
    }
  }

  lemma {:induction false} NonZeroElements(recs: seq<Record>)
    ensures forall r :: r in NonZero(recs) <==> r in recs && FirstByte(r) != [0]
  {
    if recs == [] {
    } else {
      NonZeroElements(recs[1..]);
      assert recs == [recs[0]] + recs[1..];
    }
  }

  lemma {:induction false} AllZero(recs: seq<Record>)
    requires forall i :: 0 <= i < |recs| ==> FirstByte(recs[i]) == [0]
    ensures NonZero(recs) == [] && Zero(recs) == recs
  {
    if recs == [] {
    } else {
      AllZero(recs[1..]);
      assert recs == [recs[0]] + recs[1..];
    }
  }

  /** The first maximum of everything is the first maximum of the non-zero records. */
  lemma {:induction false} NonZeroMaximum(before: seq<Record>, x: Record, after: seq<Record>)
    requires IsFirstMax(before + ([x] + after), FirstByte, |before|) && FirstByte(x) != [0]
    ensures IsFirstMax(NonZero(before) + ([x] + NonZero(after)), FirstByte, |NonZero(before)|)
  {
    var all, s, i := before + ([x] + after), NonZero(before) + ([x] + NonZero(after)), |NonZero(before)|;
    assert all[|before|] == x && s[i] == x;
    NonZeroElements(before);
    NonZeroElements(after);
    forall r | r in before || r == x || r in after
      ensures Le(FirstByte(r), FirstByte(x)) && (r in before ==> Lt(FirstByte(r), FirstByte(x)))
    {
      assert r in all;
      if r in before {
        var k: nat :| k < |before| && before[k] == r;
        assert all[k] == r;
      }
    }
    forall k | 0 <= k < |s|
      ensures Le(FirstByte(s[k]), FirstByte(x)) && (k < i ==> Lt(FirstByte(s[k]), FirstByte(x)))
    {
      assert k < i ==> s[k] in NonZero(before);
      assert i < k ==> s[k] in NonZero(after);
    }
  }

  lemma {:induction false} NonZeroSplit(before: seq<Record>, x: Record, after: seq<Record>)
    requires FirstByte(x) != [0]
    ensures NonZero(before + ([x] + after)) == NonZero(before) + ([x] + NonZero(after))
  {
    NonZeroAppend(before, [x] + after);
    NonZeroAppend([x], after);
    assert NonZero([x]) == [x];
  }

  /** Taking the first maximum of everything is taking it from the non-zero records. */
  lemma {:induction false} TakeMaximum(rest: seq<Record>, m: nat)
    requires IsFirstMax(rest, FirstByte, m) && FirstByte(rest[m]) != [0]
    ensures SelectSort(NonZero(rest), FirstByte) == SelectSort(NonZero(Without(rest, m)), FirstByte) + [rest[m]]
    ensures Zero(rest) == Zero(Without(rest, m))
  {
    var x, before, after := rest[m], rest[..m], rest[m + 1..];
    assert rest == before + ([x] + after);
    FirstMaxComesFirst(rest, FirstByte, m, [0]);
    NonZeroMaximum(before, x, after);
    NonZeroSplit(before, x, after);
    NonZeroAppend(before, after);
    WithoutMiddle(NonZero(before), x, NonZero(after));
    SelectSortTakes(NonZero(rest), FirstByte, |NonZero(before)|);
  }

  // ------------------------------------------------------------- the program

  /** The state of the scan of lines 35-46 after records `i..j`. */
  ghost predicate Scanned(all: seq<Record>, i: nat, j: nat, swapped: bool, maxPos: nat, maxRecord: Record)
    requires i <= j <= |all|
  {
    && maxRecord != []
    && (swapped ==> i <= maxPos < j && maxRecord == all[maxPos] && maxRecord[0] != 0
                    && IsFirstMax(all[i..j], FirstByte, maxPos - i))
    && (!swapped ==> maxRecord[0] == 0 && forall k :: i <= k < j ==> FirstByte(all[k]) == [0])
  }

  lemma ScanStep(all: seq<Record>, i: nat, j: nat, swapped: bool, maxPos: nat, maxRecord: Record)
    requires i <= j < |all| && all[j] != [] && (forall k :: 0 <= k < |all| ==> all[k] != [])
    requires Scanned(all, i, j, swapped, maxPos, maxRecord)
    ensures var bigger := all[j][0] > maxRecord[0];
      Scanned(all, i, j + 1, swapped || bigger, if bigger then j else maxPos, if bigger then all[j] else maxRecord)
  {
    var part := all[i..j + 1];
    assert all[i..j] == part[..j - i] && part[..j - i + 1] == part && part[j - i] == all[j];
    if swapped {
      ByteOrder(all[maxPos], all[j]);
      StrCmpAntisymmetric(FirstByte(all[maxPos]), FirstByte(all[j]));
      FirstMaxExtends(part, FirstByte, j - i, maxPos - i);
    } else if all[j][0] > 0 {
      StrCmpAntisymmetric(FirstByte(all[j]), FirstByte(all[j]));
      forall k | 0 <= k < j - i
        ensures Lt(FirstByte(part[k]), FirstByte(part[j - i]))
      {
        ByteOrder(part[k], all[j]);
      }
    }
  }

  /** The rotation of lines 49-59, seen after the writes down to position `k`. */
  function Rotated(all: seq<Record>, maxPos: nat, k: nat): seq<Record>
    requires k <= maxPos < |all|
  {
    all[..k + 1] + all[k..maxPos] + all[maxPos + 1..]
  }

  lemma RotateStep(all: seq<Record>, maxPos: nat, k: nat)
    requires 0 < k <= maxPos < |all|
    ensures Rotated(all, maxPos, k)[k - 1] == all[k - 1]
    ensures Rotated(all, maxPos, k)[k := all[k - 1]] == Rotated(all, maxPos, k - 1)
  {
  }

  lemma RotateEnds(all: seq<Record>, maxPos: nat, maxRecord: Record)
    requires maxPos < |all|
    ensures Rotated(all, maxPos, maxPos) == all
    ensures Rotated(all, maxPos, 0)[0 := maxRecord] == [maxRecord] + Without(all, maxPos)
  {
    assert all[..maxPos + 1] + all[maxPos..maxPos] + all[maxPos + 1..] == all;
    assert Without(all, maxPos) == all[0..maxPos] + all[maxPos + 1..];
  }

  method ReadRecord(f: File, recordSize: nat, k: nat, ghost now: seq<Record>, ghost tail: seq<Byte>)
    returns (buffer: Record)
    requires k < |now| && Sized(now, recordSize) && f.content == Flat(now) + tail
    modifies f`offset
    ensures buffer == now[k]
  {
    FlatAt(now, tail, recordSize, k);
    f.Lseek(k * recordSize);
    buffer := f.Read(recordSize);
  }

  method WriteRecord(f: File, recordSize: nat, k: nat, buffer: Record, ghost now: seq<Record>, ghost tail: seq<Byte>)
    requires k < |now| && Sized(now, recordSize) && |buffer| == recordSize && f.content == Flat(now) + tail
    modifies f
    ensures f.content == Flat(now[k := buffer]) + tail
  {
    FlatUpdate(now, tail, recordSize, k, buffer);
    f.Lseek(k * recordSize);
    f.Write(buffer);
  }

  /** Lines 34-46: the first maximum of the records from `i` on, if any is above zero. */
  method Scan(f: File, recordSize: nat, fileSize: nat, i: nat, ghost all: seq<Record>, ghost tail: seq<Byte>)
    returns (swapped: bool, maxPos: nat, maxRecord: Record)
    requires 1 <= recordSize && i < fileSize == |all| && Sized(all, recordSize)
    requires f.content == Flat(all) + tail
    modifies f`offset
    ensures Scanned(all, i, fileSize, swapped, maxPos, maxRecord)
  {
    maxRecord := seq(recordSize, _ => 0);
    maxPos := i;
    f.Lseek(recordSize * i);
    swapped := false;
    for j := i to fileSize
      invariant f.offset == recordSize * j
      invariant Scanned(all, i, j, swapped, maxPos, maxRecord)
    {
      FlatAt(all, tail, recordSize, j);
      assert recordSize * (j + 1) == recordSize * j + recordSize;
      var buffer := f.Read(recordSize);
      ScanStep(all, i, j, swapped, maxPos, maxRecord);
      if buffer[0] > maxRecord[0] {
        maxRecord := buffer;
        maxPos := j;
        swapped := true;
      }
    }
  }

  /** Lines 49-59: records `0..maxPos` move up by one and the maximum goes to the front. */
  method Rotate(f: File, recordSize: nat, maxPos: nat, maxRecord: Record,
                ghost all: seq<Record>, ghost tail: seq<Byte>)
    requires 1 <= recordSize && maxPos < |all| && Sized(all, recordSize) && |maxRecord| == recordSize
    requires f.content == Flat(all) + tail
    modifies f
    ensures f.content == Flat([maxRecord] + Without(all, maxPos)) + tail
  {
    ghost var now := all;
    var k := maxPos;
    RotateEnds(all, maxPos, maxRecord);
    while k > 0
      invariant 0 <= k <= maxPos && now == Rotated(all, maxPos, k)
      invariant Sized(now, recordSize) && f.content == Flat(now) + tail
    {
      RotateStep(all, maxPos, k);
      var buffer := ReadRecord(f, recordSize, k - 1, now, tail);
      WriteRecord(f, recordSize, k, buffer, now, tail);
      now := now[k := buffer];
      k := k - 1;
    }
    WriteRecord(f, recordSize, 0, maxRecord, now, tail);
  }

  /** What the outer loop keeps: `front` is done, and what is left to do completes it to `result`. */
  predicate Progress(result: seq<Record>, front: seq<Record>, rest: seq<Record>) {
    (SelectSort(NonZero(rest), FirstByte) + front) + Zero(rest) == result
  }

  lemma ProgressStep(result: seq<Record>, front: seq<Record>, rest: seq<Record>, m: nat)
    requires Progress(result, front, rest)
    requires IsFirstMax(rest, FirstByte, m) && FirstByte(rest[m]) != [0]
    ensures Progress(result, [rest[m]] + front, Without(rest, m))
  {
    TakeMaximum(rest, m);
    ConsShifts(SelectSort(NonZero(Without(rest, m)), FirstByte), rest[m], front);
  }

  lemma ConsShifts(others: seq<Record>, x: Record, front: seq<Record>)
    ensures (others + [x]) + front == others + ([x] + front)
  {
  }

  /** Nothing above zero is left: lines 47 and 62. */
  lemma ProgressDone(result: seq<Record>, front: seq<Record>, rest: seq<Record>)
    requires Progress(result, front, rest)
    requires forall i :: 0 <= i < |rest| ==> FirstByte(rest[i]) == [0]
    ensures front + rest == result
  {
    AllZero(rest);
    assert SelectSort(NonZero(rest), FirstByte) == [];
    assert [] + front == front;
  }

  /** A rotation of the whole file, seen in its two parts. */
  lemma RotateParts(front: seq<Record>, rest: seq<Record>, m: nat, size: nat)
    requires m < |rest| && Sized(front + rest, size)
    ensures var all := front + rest;
      && all[|front| + m] == rest[m] && |rest[m]| == size
      && [rest[m]] + Without(all, |front| + m) == ([rest[m]] + front) + Without(rest, m)
      && Sized(([rest[m]] + front) + Without(rest, m), size)
  {
    var all := front + rest;
    assert all[|front| + m] == rest[m];
    assert Without(all, |front| + m) == front + Without(rest, m);
    var w := Without(all, |front| + m);
    forall k | 0 <= k < |w|
      ensures |w[k]| == size
    {
      assert w[k] == all[if k < |front| + m then k else k + 1];
    }
  }

  /** What the outer loop keeps about the file. */
  ghost predicate Holds(bytes: seq<Byte>, front: seq<Record>, rest: seq<Record>, tail: seq<Byte>, size: nat,
                        result: seq<Record>)
  {
    Sized(front + rest, size) && bytes == Flat(front + rest) + tail && Progress(result, front, rest)
  }

  /** The body of the outer loop, lines 30-59; `again` is false when the source breaks out. */
  method Pass(f: File, recordSize: nat, fileSize: nat, i: nat,
              ghost front: seq<Record>, ghost rest: seq<Record>, ghost tail: seq<Byte>, ghost result: seq<Record>)
    returns (again: bool, ghost front': seq<Record>, ghost rest': seq<Record>)
    requires 1 <= recordSize && i == |front| < fileSize == |front| + |rest|
    requires Holds(f.content, front, rest, tail, recordSize, result)
    modifies f
    ensures |front'| == (if again then i + 1 else i) && |front'| + |rest'| == fileSize
    ensures Holds(f.content, front', rest', tail, recordSize, result)
    ensures !again ==> front' + rest' == result
  {
    ghost var all := front + rest;
    front', rest' := front, rest;
    assert all[i..fileSize] == rest;
    var maxPos, maxRecord;
    again, maxPos, maxRecord := Scan(f, recordSize, fileSize, i, all, tail);
    if again {
      ghost var m := maxPos - i;
      RotateParts(front, rest, m, recordSize);
      ByteOrder(rest[m], rest[m]);
      ProgressStep(result, front, rest, m);
      Rotate(f, recordSize, maxPos, maxRecord, all, tail);
      front', rest' := [maxRecord] + front, Without(rest, m);
    } else {
      assert forall k :: 0 <= k < |rest| ==> rest[k] == all[i + k];
      ProgressDone(result, front, rest);
    }
  }

  /** Lines 26-63. The first `fileSize` records end up sorted, later bytes are untouched. */
  method SortFile(f: File, recordSize: nat, fileSize: nat)
    requires 1 <= recordSize && recordSize * fileSize <= |f.content|
    modifies f
    ensures var bytes := old(f.content);
      f.content == Flat(SortedFile(Records(bytes, recordSize, fileSize))) + bytes[recordSize * fileSize..]
  {
    ghost var recs := Records(f.content, recordSize, fileSize);
    ghost var tail := f.content[recordSize * fileSize..];
    RecordsRoundTrip(f.content, recordSize, fileSize);
    ghost var front, rest, result := [], recs, SortedFile(recs);
    assert front + rest == recs && SelectSort(NonZero(recs), FirstByte) + front == SelectSort(NonZero(recs), FirstByte);
    var i := 0;
    while i < fileSize
      invariant 0 <= i == |front| <= fileSize && |rest| == fileSize - i
      invariant Holds(f.content, front, rest, tail, recordSize, result)
    {
      var again;
      again, front, rest := Pass(f, recordSize, fileSize, i, front, rest, tail, result);
      if !again {
        return;
      }
      i := i + 1;
    }
    ProgressDone(result, front, rest);
  }

  // ------------------------------------------------------------- main results

  /** The result is always a rearrangement of the records. */
  lemma {:induction false} SplitPermutes(recs: seq<Record>)
    ensures multiset(NonZero(recs)) + multiset(Zero(recs)) == multiset(recs)
  {
    if recs == [] {
    } else {
      SplitPermutes(recs[1..]);
      assert recs == [recs[0]] + recs[1..];
    }
  }

  lemma SortedFilePermutes(recs: seq<Record>)
    ensures multiset(SortedFile(recs)) == multiset(recs)
  {
    SelectSortPermutes(NonZero(recs), FirstByte);
    SplitPermutes(recs);
  }

  lemma {:induction false} ZeroElements(recs: seq<Record>)
    ensures forall r :: r in Zero(recs) <==> r in recs && FirstByte(r) == [0]
  {
    if recs == [] {
    } else {
      ZeroElements(recs[1..]);
      assert recs == [recs[0]] + recs[1..];
    }
  }

  /** The file ends sorted by first byte exactly when the first bytes are all zero or none is. */
  lemma SortedExactlyWhen(recs: seq<Record>, size: nat)
    requires 1 <= size && Sized(recs, size)
    ensures Sorted(SortedFile(recs), FirstByte) <==>
      (forall i :: 0 <= i < |recs| ==> recs[i][0] == 0) || (forall i :: 0 <= i < |recs| ==> recs[i][0] != 0)
  {
    if forall i :: 0 <= i < |recs| ==> recs[i][0] == 0 {
      AllZero(recs);
      StrCmpAntisymmetric([0], [0]);
      assert SelectSort(NonZero(recs), FirstByte) == [];
      assert SortedFile(recs) == recs;
    } else if forall i :: 0 <= i < |recs| ==> recs[i][0] != 0 {
      NoneZero(recs);
      SelectSortSorted(recs, FirstByte);
      assert SortedFile(recs) == SelectSort(recs, FirstByte);
    } else {
      MixedIsUnsorted(recs, size);
    }
  }

  lemma ZeroBehindLarger(high: seq<Record>, low: seq<Record>)
    requires high != [] && high[0] != [] && FirstByte(high[0]) != [0]
    requires low != [] && low[0] != [] && FirstByte(low[0]) == [0]
    ensures !Sorted(high + low, FirstByte)
  {
    ByteOrder(high[0], low[0]);
    assert (high + low)[0] == high[0] && (high + low)[|high|] == low[0];
  }

  lemma {:induction false} SelectSortMember(s: seq<Record>)
    requires s != []
    ensures SelectSort(s, FirstByte) != [] && SelectSort(s, FirstByte)[0] in s
  {
    SelectSortPermutes(s, FirstByte);
    assert |multiset(SelectSort(s, FirstByte))| == |multiset(s)|;
    assert SelectSort(s, FirstByte)[0] in multiset(SelectSort(s, FirstByte));
  }

  lemma MixedIsUnsorted(recs: seq<Record>, size: nat)
    requires 1 <= size && Sized(recs, size)
    requires exists i :: 0 <= i < |recs| && recs[i][0] == 0
    requires exists i :: 0 <= i < |recs| && recs[i][0] != 0
    ensures !Sorted(SortedFile(recs), FirstByte)
  {
    var i: nat :| i < |recs| && recs[i][0] == 0;
    var j: nat :| j < |recs| && recs[j][0] != 0;
    NonZeroElements(recs);
    ZeroElements(recs);
    assert recs[i] in Zero(recs) && recs[j] in NonZero(recs);
    SelectSortMember(NonZero(recs));
    var r := SelectSort(NonZero(recs), FirstByte)[0];
    assert r in recs && Zero(recs)[0] in recs;
    ZeroBehindLarger(SelectSort(NonZero(recs), FirstByte), Zero(recs));
  }

  /** A file on which the sort does not sort: a zero record stays behind a larger one. */
  lemma UnsortedExample()
    ensures SortedFile([[0], [1]]) == [[1], [0]]
    ensures !Sorted(SortedFile([[0], [1]]), FirstByte)
  {
    var zero, one: seq<Record> := [[0]], [[1]];
    assert zero + one == [[0], [1]];
    SelectSortOfOne([1]);
    AllZero(zero);
    NoneZero(one);
    NonZeroAppend(zero, one);
    OfKeyAppend(zero, one, FirstByte, [0]);
    ZeroBehindLarger(one, zero);
  }

  lemma SelectSortOfOne(r: Record)
    ensures SelectSort([r], FirstByte) == [r]
  {
    assert Without([r], 0) == [];
  }

  lemma {:induction false} NoneZero(recs: seq<Record>)
    requires forall i :: 0 <= i < |recs| ==> FirstByte(recs[i]) != [0]
    ensures NonZero(recs) == recs && Zero(recs) == []
  {
    if recs == [] {
    } else {
      NoneZero(recs[1..]);
      assert recs == [recs[0]] + recs[1..];
    }
  }

  /** With no zero first bytes, and a list whose sort field holds the same keys, the file sort
      and the linked-list sort apply the same permutation of positions. */
  lemma {:induction false} AgreesWithListSort(recs: seq<Record>, nodes: seq<PersonList.Node>, field: PersonList.Field)
    requires |nodes| == |recs|
    requires forall i :: 0 <= i < |recs| ==>
      FirstByte(recs[i]) != [0] && nodes[i].Get(field) == FirstByte(recs[i])
    ensures var order := SelectionOrder(Keys(recs, FirstByte));
      && multiset(order) == multiset(Indices(|recs|))
      && Positions(order, |recs|)
      && SortedFile(recs) == Pick(recs, order)
      && SelectSort(nodes, PersonList.By(field)) == Pick(nodes, order)
  {
    NoneZero(recs);
    SelectSortByOrder(recs, FirstByte);
    SelectSortByOrder(nodes, PersonList.By(field));
    assert Keys(recs, FirstByte) == Keys(nodes, PersonList.By(field));
  }
}
