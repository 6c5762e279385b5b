/** The parallel record search of cw08/zad1/wersja3.c: threads take chunks of a
    file under a mutex and report the space-delimited occurrences of a word in
    the 1024-byte records they got. */
module RecordSearch {
  import opened Mutexes
  import opened Sums
  import opened DecimalText

  const RECORD_SIZE: nat := 1024

  /** Where the text of a record starts, after its number. */
  const TEXT_START: nat := 5

  // ------------------------------------------------------------- one record

  /** The bytes from `j` on spell `word`. */
  predicate Spells(rec: string, j: nat, word: string)
    decreases word
  {
    word == [] || (j < |rec| && rec[j] == word[0] && Spells(rec, j + 1, word[1..]))
  }

  /** The word stands at `j`, between blanks. */
  predicate MatchAt(rec: string, word: string, j: nat) {
    1 <= j && j + |word| < |rec| && rec[j - 1] == ' ' && rec[j + |word|] == ' ' && Spells(rec, j, word)
  }

  lemma {:induction false} SpellsMeans(rec: string, j: nat, word: string)
    requires j + |word| <= |rec|
    ensures Spells(rec, j, word) <==> rec[j..j + |word|] == word
    decreases word
  {
    if word == [] {
    } else {
      SpellsMeans(rec, j + 1, word[1..]);
      assert rec[j..j + |word|] == [rec[j]] + rec[j + 1..j + |word|];
      assert word == [word[0]] + word[1..];
    }
  }

  lemma {:induction false} SpellsInPart(buf: string, ptr: nat, size: nat, j: nat, word: string)
    requires ptr + size <= |buf| && j + |word| <= size
    ensures Spells(buf, ptr + j, word) <==> Spells(buf[ptr..ptr + size], j, word)
    decreases word
  {
    if word == [] {
    } else {
      SpellsInPart(buf, ptr, size, j + 1, word[1..]);
    }
  }

  /** `word_eq` (lines 58-77) at position `s` of the buffer. */
  method WordEq(buf: array<char>, s: nat, word: string) returns (equal: bool)
    requires 1 <= s && s + |word| < buf.Length
    ensures equal <==> buf[s - 1] == ' ' && buf[s..s + |word|] == word && buf[s + |word|] == ' '
    ensures equal == MatchAt(buf[..], word, s)
  {
    SpellsMeans(buf[..], s, word);
    assert buf[..][s..s + |word|] == buf[s..s + |word|];
    if buf[s - 1] == ' ' {
      var i := 0;
      while i < |word|
        invariant 0 <= i <= |word|
        invariant Spells(buf[..], s, word) == Spells(buf[..], s + i, word[i..])
      {
        if word[i] != buf[s + i] {
          return false;
        }
        assert word[i..][1..] == word[i + 1..];
        i := i + 1;
      }
      if buf[s + |word|] == ' ' {
        return true;
      }
    }
    return false;
  }

  /** The offsets of the matches from `j` on, in order. */
  function MatchesFrom(rec: string, word: string, j: nat): seq<nat>
    decreases RECORD_SIZE - j, rec
  {
    if RECORD_SIZE <= j + |word| then []
    else if MatchAt(rec, word, j) then [j] + MatchesFrom(rec, word, j + 1)
    else MatchesFrom(rec, word, j + 1)
  }

  predicate Increasing(hits: seq<nat>, from: nat) {
    && (forall a :: 0 <= a < |hits| ==> from <= hits[a])
    && (forall a, b :: 0 <= a < b < |hits| ==> hits[a] < hits[b])
  }

  lemma IncreasingWeakens(hits: seq<nat>, from: nat)
    requires Increasing(hits, from + 1)
    ensures Increasing(hits, from)
  {
  }

  lemma IncreasingCons(rest: seq<nat>, j: nat)
    requires Increasing(rest, j + 1)
    ensures Increasing([j] + rest, j)
  {
  }

  /** Each offset is listed once, in increasing order. */
  lemma {:induction false} MatchesFromIncrease(rec: string, word: string, j: nat)
    ensures Increasing(MatchesFrom(rec, word, j), j)
    decreases RECORD_SIZE - j
  {
    if RECORD_SIZE <= j + |word| {
    } else {
      MatchesFromIncrease(rec, word, j + 1);
      var rest := MatchesFrom(rec, word, j + 1);
      if MatchAt(rec, word, j) {
        IncreasingCons(rest, j);
      } else {
        IncreasingWeakens(rest, j);
      }
    }
  }

  /** The inner loop (lines 44-48) over the record that starts at `ptr`. */
  method ScanRecord(buf: array<char>, ptr: nat, word: string) returns (hits: seq<nat>)
    requires ptr + RECORD_SIZE <= buf.Length
    ensures hits == MatchesFrom(buf[ptr..ptr + RECORD_SIZE], word, TEXT_START)
    ensures Increasing(hits, TEXT_START)
  {
    hits := [];
    var j := TEXT_START;
    MatchesFromIncrease(buf[ptr..ptr + RECORD_SIZE], word, TEXT_START);
    ghost var rec := buf[ptr..ptr + RECORD_SIZE];
    while j < RECORD_SIZE - |word|
      invariant TEXT_START <= j
      invariant hits + MatchesFrom(rec, word, j) == MatchesFrom(rec, word, TEXT_START)
      decreases RECORD_SIZE - j
    {
      var equal := WordEq(buf, ptr + j, word);
      MatchInBuffer(buf[..], ptr, word, j);
      assert buf[..][ptr..ptr + RECORD_SIZE] == rec;
      ghost var rest := MatchesFrom(rec, word, j + 1);
      assert (hits + [j]) + rest == hits + ([j] + rest);
      if equal {
        hits := hits + [j];
      }
      j := j + 1;
    }
  }

  /** A match in the buffer is a match in the record. */
  lemma MatchInBuffer(buf: string, ptr: nat, word: string, j: nat)
    requires ptr + RECORD_SIZE <= |buf| && 1 <= j && j + |word| < RECORD_SIZE
    ensures MatchAt(buf, word, ptr + j) <==> MatchAt(buf[ptr..ptr + RECORD_SIZE], word, j)
  {
    SpellsInPart(buf, ptr, RECORD_SIZE, j, word);
  }

  /** Exactly the matching offsets are listed. */
  lemma {:induction false} MatchesFromAreExact(rec: string, word: string, j: nat, o: nat)
    ensures o in MatchesFrom(rec, word, j) <==> j <= o && o + |word| < RECORD_SIZE && MatchAt(rec, word, o)
    decreases RECORD_SIZE - j
  {
    if RECORD_SIZE <= j + |word| {
    } else {
      MatchesFromAreExact(rec, word, j + 1, o);
    }
  }

  // ------------------------------------------------------- the sequential scan

  /** The file, the word, and the number of records per chunk (`records_count`). */
  datatype Job = Job(file: string, word: string, chunk: nat) {
    function Records(): nat {
      |file| / RECORD_SIZE
    }

    function Record(r: nat): string {
      if RECORD_SIZE * r + RECORD_SIZE <= |file| then file[RECORD_SIZE * r..RECORD_SIZE * r + RECORD_SIZE] else ""
    }
  }

  /** What a scan does: it visits a record, or reports a hit with the record's number. */
  datatype Event = Visited(r: nat) | Found(r: nat, offset: nat, id: int)

  /** The hit at offset `j` of record `r`, if there is one. */
  function HitAt(job: Job, r: nat, j: nat): seq<Event> {
    if MatchAt(job.Record(r), job.word, j) then [Found(r, j, Atoi(job.Record(r)))] else []
  }

  function HitsFrom(job: Job, r: nat, j: nat): seq<Event>
    decreases RECORD_SIZE - j, job
  {
    if RECORD_SIZE <= j + |job.word| then [] else HitAt(job, r, j) + HitsFrom(job, r, j + 1)
  }

  function RecordEvents(job: Job, r: nat): seq<Event> {
    [Visited(r)] + HitsFrom(job, r, TEXT_START)
  }

  /** The sequential scan of records `a` up to `b`. */
  function ScanEvents(job: Job, a: nat, b: nat): seq<Event>
    decreases b - a
  {
    if b <= a then [] else RecordEvents(job, a) + ScanEvents(job, a + 1, b)
  }

  /** The sequential program: one pass over all complete records. */
  function SequentialScan(job: Job): seq<Event> {
    ScanEvents(job, 0, job.Records())
  }

  /** The hits of record `r` at the listed offsets. */
  function Report(job: Job, r: nat, offsets: seq<nat>): seq<Event> {
    if offsets == [] then [] else [Found(r, offsets[0], Atoi(job.Record(r)))] + Report(job, r, offsets[1..])
  }

  /** The hits of a record stand at the offsets that the inner loop finds. */
  lemma {:induction false} HitsAreMatches(job: Job, r: nat, j: nat)
    ensures HitsFrom(job, r, j) == Report(job, r, MatchesFrom(job.Record(r), job.word, j))
    decreases RECORD_SIZE - j
  {
    if RECORD_SIZE <= j + |job.word| {
    } else {
      HitsAreMatches(job, r, j + 1);
      if MatchAt(job.Record(r), job.word, j) {
        ReportOne(job, r, j, MatchesFrom(job.Record(r), job.word, j + 1));
      } else {
        assert HitsFrom(job, r, j) == [] + HitsFrom(job, r, j + 1) == HitsFrom(job, r, j + 1);
      }
    }
  }

  lemma {:induction false} ReportOne(job: Job, r: nat, offset: nat, rest: seq<nat>)
    ensures Report(job, r, [offset] + rest) == [Found(r, offset, Atoi(job.Record(r)))] + Report(job, r, rest)
  {
    assert ([offset] + rest)[1..] == rest;
  }

  lemma {:induction false} ScanSplits(job: Job, a: nat, b: nat, c: nat)
    requires a <= b <= c
    ensures ScanEvents(job, a, c) == ScanEvents(job, a, b) + ScanEvents(job, b, c)
    decreases b - a
  {
    if a == b {
      assert [] + ScanEvents(job, b, c) == ScanEvents(job, b, c);
    } else {
      ScanSplits(job, a + 1, b, c);
      var first := RecordEvents(job, a);
      assert first + (ScanEvents(job, a + 1, b) + ScanEvents(job, b, c)) ==
        (first + ScanEvents(job, a + 1, b)) + ScanEvents(job, b, c);
    }
  }

  /** Counts the occurrences of an event in a log. */
  function Is(e: Event): Event -> int {
    x => if x == e then 1 else 0
  }

  lemma {:induction false} CountIsMultiplicity(log: seq<Event>, e: Event)
    ensures Sum(log, Is(e)) == multiset(log)[e]
  {
    if log == [] {
    } else {
      CountIsMultiplicity(log[1..], e);
      assert log == [log[0]] + log[1..];
    }
  }

  /** The event is a delimited match of the word in its record, at offset `j` or later. */
  predicate IsHit(job: Job, e: Event, j: nat) {
    && e.Found? && j <= e.offset && e.offset + |job.word| < RECORD_SIZE
    && MatchAt(job.Record(e.r), job.word, e.offset) && e.id == Atoi(job.Record(e.r))
  }

  /** The event belongs to the scan of records `a` up to `b`. */
  predicate Wanted(job: Job, a: nat, b: nat, e: Event) {
    a <= e.r < b && (e.Visited? || IsHit(job, e, TEXT_START))
  }

  lemma CountOne(x: Event, e: Event)
    ensures Sum([x], Is(e)) == One(x == e)
  {
    assert [x][1..] == [];
  }

  lemma CountHit(job: Job, r: nat, j: nat, e: Event)
    requires j + |job.word| < RECORD_SIZE
    ensures Sum(HitAt(job, r, j), Is(e)) + One(e.r == r && IsHit(job, e, j + 1)) == One(e.r == r && IsHit(job, e, j))
  {
    CountOne(Found(r, j, Atoi(job.Record(r))), e);
  }

  lemma {:induction false} HitsAreExact(job: Job, r: nat, j: nat, e: Event)
    ensures Sum(HitsFrom(job, r, j), Is(e)) == One(e.r == r && IsHit(job, e, j))
    decreases RECORD_SIZE - j
  {
    if RECORD_SIZE <= j + |job.word| {
    } else {
      HitsAreExact(job, r, j + 1, e);
      CountHit(job, r, j, e);
      SumAppend(HitAt(job, r, j), HitsFrom(job, r, j + 1), Is(e));
    }
  }

  lemma RecordIsExact(job: Job, r: nat, e: Event)
    ensures Sum(RecordEvents(job, r), Is(e)) == One(Wanted(job, r, r + 1, e))
  {
    HitsAreExact(job, r, TEXT_START, e);
    CountOne(Visited(r), e);
    SumAppend([Visited(r)], HitsFrom(job, r, TEXT_START), Is(e));
  }

  lemma {:induction false} ScanIsExact(job: Job, a: nat, b: nat, e: Event)
    ensures Sum(ScanEvents(job, a, b), Is(e)) == One(Wanted(job, a, b, e))
    decreases b - a
  {
    if b <= a {
    } else {
      RecordIsExact(job, a, e);
      ScanIsExact(job, a + 1, b, e);
      SumAppend(RecordEvents(job, a), ScanEvents(job, a + 1, b), Is(e));
    }
  }

  lemma RecordBounds(job: Job, r: nat)
    ensures r < job.Records() <==> 1024 * r + 1024 <= |job.file|
  {
  }

  lemma RecordInFile(job: Job, r: nat, from: nat, to: nat)
    requires 1024 * r + 1024 <= |job.file| && from <= to <= 1024
    ensures |job.Record(r)| == 1024 && job.Record(r)[from..to] == job.file[1024 * r + from..1024 * r + to]
  {
  }

  lemma Delimited(text: string, word: string)
    requires |text| == |word| + 2
    ensures text == " " + word + " " <==> text[0] == ' ' && text[1..|word| + 1] == word && text[|word| + 1] == ' '
  {
    assert text == [text[0]] + text[1..|word| + 1] + [text[|word| + 1]];
    if text == " " + word + " " {
      assert text[1..|word| + 1] == word;
    }
  }

  /** A match is the word between two blanks in the record's bytes of the file. */
  lemma MatchInFile(job: Job, r: nat, o: nat)
    requires 1024 * r + 1024 <= |job.file| && 5 <= o && o + |job.word| < 1024
    ensures MatchAt(job.Record(r), job.word, o) <==>
      job.file[1024 * r + o - 1..1024 * r + o + |job.word| + 1] == " " + job.word + " "
  {
    var n := |job.word|;
    RecordInFile(job, r, o - 1, o + n + 1);
    var part := job.Record(r)[o - 1..o + n + 1];
    SpellsMeans(job.Record(r), o, job.word);
    assert part[1..n + 1] == job.Record(r)[o..o + n];
    Delimited(part, job.word);
  }

  lemma WantedVisit(job: Job, e: Event)
    requires e.Visited?
    ensures Wanted(job, 0, job.Records(), e) <==> 1024 * e.r + 1024 <= |job.file|
  {
    RecordBounds(job, e.r);
  }

  lemma WantedFound(job: Job, e: Event)
    requires e.Found?
    ensures Wanted(job, 0, job.Records(), e) <==>
      && 1024 * e.r + 1024 <= |job.file| && 5 <= e.offset && e.offset + |job.word| < 1024
      && job.file[1024 * e.r + e.offset - 1..1024 * e.r + e.offset + |job.word| + 1] == " " + job.word + " "
      && e.id == Atoi(job.file[1024 * e.r..1024 * e.r + 1024])
  {
    RecordBounds(job, e.r);
    if 1024 * e.r + 1024 <= |job.file| && 5 <= e.offset && e.offset + |job.word| < 1024 {
      MatchInFile(job, e.r, e.offset);
      RecordInFile(job, e.r, 0, 1024);
      assert job.Record(e.r)[0..1024] == job.Record(e.r);
    }
  }

  /** The sequential scan visits every complete record of the file once. It reports, once, every place from offset 5 on
      where the word stands between two blanks inside a record, with the number the record starts with; nothing else. */
  lemma SequentialScanIsExact(job: Job, e: Event)
    ensures multiset(SequentialScan(job))[e] == One(Wanted(job, 0, job.Records(), e))
    ensures e.Visited? ==> multiset(SequentialScan(job))[e] == One(1024 * e.r + 1024 <= |job.file|)
    ensures e.Found? ==> multiset(SequentialScan(job))[e] == One(
      && 1024 * e.r + 1024 <= |job.file| && 5 <= e.offset && e.offset + |job.word| < 1024
      && job.file[1024 * e.r + e.offset - 1..1024 * e.r + e.offset + |job.word| + 1] == " " + job.word + " "
      && e.id == Atoi(job.file[1024 * e.r..1024 * e.r + 1024]))
  {
    ScanIsExact(job, 0, job.Records(), e);
    CountIsMultiplicity(SequentialScan(job), e);
    if e.Visited? {
      WantedVisit(job, e);
    } else {
      WantedFound(job, e);
    }
  }

  /** A record that starts with white space, an optional sign and a decimal number is reported by that number. */
  lemma {:induction false} HitCarriesNumber(job: Job, e: Event, blanks: string, sign: string, zeros: string, n: nat, rest: string)
    requires e.Found? && e in SequentialScan(job)
    requires (forall i :: 0 <= i < |blanks| ==> blanks[i] in {' ', '\t', '\n', '\U{B}', '\U{C}', '\r'})
    requires sign in {"", "+", "-"} && (forall i :: 0 <= i < |zeros| ==> zeros[i] == '0')
    requires rest == [] || !('0' <= rest[0] <= '9')
    requires 1024 * e.r + 1024 <= |job.file| ==>
      job.file[1024 * e.r..1024 * e.r + 1024] == blanks + (sign + (zeros + (Dec(n) + rest)))
    ensures e.id == if sign == "-" then -(n as int) else n
  {
    assert e in multiset(SequentialScan(job));
    SequentialScanIsExact(job, e);
    ReadNumber(blanks, sign, zeros, n, rest);
  }

  // ------------------------------------------------------------- the threads

  /** Lines 33-53. `first` is the number of the first record of the thread's chunk. */
  datatype PC =
    | WantFile                                     // 35
    | ReadChunk                                    // 36
    | ReleaseFile(first: nat, bytes: nat)          // 37
    | ReleaseFailed                                // 37, after a read that returned -1
    | NextRecord(first: nat, count: nat, i: nat)   // 41-42
    | Test(first: nat, count: nat, i: nat, j: nat) // 44-47
    | Done

  datatype State = State(pc: seq<PC>, owner: Owner, offset: nat, log: seq<Event>) {
    function Goto(t: nat, next: PC): State
      requires t < |pc|
    {
      this.(pc := pc[t := next])
    }
  }

  predicate Init(s: State) {
    && s.owner == Free && s.offset == 0 && s.log == []
    && forall t :: 0 <= t < |s.pc| ==> s.pc[t] == WantFile
  }

  predicate Ready(s: State, t: nat) {
    t < |s.pc| && !s.pc[t].Done? && (s.pc[t].WantFile? ==> s.owner == Free)
  }

  /** The bytes the next `read` delivers. */
  function ReadCount(job: Job, offset: nat): nat {
    if |job.file| <= offset then 0
    else if RECORD_SIZE * job.chunk <= |job.file| - offset then RECORD_SIZE * job.chunk
    else |job.file| - offset
  }

  function Exec(job: Job, s: State, t: nat): State
    requires t < |s.pc|
  {
    match s.pc[t]
    case WantFile => s.(owner := By(t)).Goto(t, ReadChunk)
    case ReadChunk =>
      var bytes := ReadCount(job, s.offset);
      s.(offset := s.offset + bytes).Goto(t, ReleaseFile(s.offset / RECORD_SIZE, bytes))
    case ReleaseFailed => s.(owner := Free).Goto(t, NextRecord(0, 0, 0))
    case ReleaseFile(first, bytes) =>
      s.(owner := Free).Goto(t, if bytes == 0 then Done else NextRecord(first, bytes / RECORD_SIZE, 0))
    case NextRecord(first, count, i) =>
      if i < count then
        s.(log := s.log + [Visited(first + i)]).Goto(t, Test(first, count, i, TEXT_START))
      else s.Goto(t, WantFile)
    case Test(first, count, i, j) =>
      if RECORD_SIZE <= j + |job.word| then s.Goto(t, NextRecord(first, count, i + 1))
      else s.(log := s.log + HitAt(job, first + i, j)).Goto(t, Test(first, count, i, j + 1))
    case Done => s
  }

  /** Thread `t` executes its next statement, or its `read` fails: -1 bytes hold no record and do not end the loop. */
  datatype Action = Run(t: nat) | ReadFails(t: nat)

  predicate Enabled(s: State, act: Action) {
    match act
    case Run(t) => Ready(s, t)
    case ReadFails(t) => t < |s.pc| && s.pc[t].ReadChunk?
  }

  function Next(job: Job, s: State, act: Action): State
    requires Enabled(s, act)
  {
    match act
    case Run(t) => Exec(job, s, t)
    case ReadFails(t) => s.Goto(t, ReleaseFailed)
  }

  predicate Execution(job: Job, states: seq<State>, acts: seq<Action>) {
    && |states| == |acts| + 1
    && forall k :: 0 <= k < |acts| ==> Enabled(states[k], acts[k]) && states[k + 1] == Next(job, states[k], acts[k])
  }

  // --------------------------------------------------------------- invariant

  /** Whether a thread still owes the event for the chunk it holds. */
  predicate Owes(job: Job, pc: PC, e: Event) {
    match pc
    case ReleaseFile(first, bytes) => Wanted(job, first, first + bytes / RECORD_SIZE, e)
    case NextRecord(first, count, i) => Wanted(job, first + i, first + count, e)
    case Test(first, count, i, j) =>
      (e.r == first + i && IsHit(job, e, j)) || Wanted(job, first + i + 1, first + count, e)
    case _ => false
  }

  function OwedW(job: Job, e: Event): PC -> int {
    pc => One(Owes(job, pc, e))
  }

  /** The event belongs to a record not yet handed out. */
  predicate Untouched(job: Job, s: State, e: Event) {
    Wanted(job, s.offset / RECORD_SIZE, job.Records(), e)
  }

  /** Each event of the sequential scan is reported, owed by a thread, or still in the file. */
  ghost predicate Balanced(job: Job, s: State) {
    forall e :: Sum(s.log, Is(e)) + Sum(s.pc, OwedW(job, e)) + One(Untouched(job, s, e)) ==
      One(Wanted(job, 0, job.Records(), e))
  }

  predicate ThreadOk(job: Job, s: State, t: nat)
    requires t < |s.pc|
  {
    && ((s.pc[t].ReadChunk? || s.pc[t].ReleaseFile? || s.pc[t].ReleaseFailed?) <==> s.owner == By(t))
    && (s.pc[t].NextRecord? ==> s.pc[t].i <= s.pc[t].count)
    && (s.pc[t].Test? ==> s.pc[t].i < s.pc[t].count)
    && (s.pc[t].ReleaseFile? && s.pc[t].bytes == 0 ==> s.offset == |job.file|)
    && (s.pc[t].Done? ==> s.offset == |job.file|)
  }

  ghost predicate Inv(job: Job, s: State) {
    && (s.owner.By? ==> s.owner.thread < |s.pc|)
    && (forall t :: 0 <= t < |s.pc| ==> ThreadOk(job, s, t))
    && s.offset <= |job.file| && (s.offset == |job.file| || s.offset % RECORD_SIZE == 0)
    && Balanced(job, s)
  }

  lemma InitInv(job: Job, s: State)
    requires Init(s)
    ensures Inv(job, s)
  {
    forall e
      ensures Sum(s.pc, OwedW(job, e)) == 0
    {
      SumConstant(s.pc, OwedW(job, e), 0);
    }
  }

  /** A chunk read from a record boundary holds exactly the complete records it takes from the file. */
  lemma ChunkBoundaries(job: Job, offset: nat)
    requires 1 <= job.chunk && offset <= |job.file|
    requires offset == |job.file| || offset % RECORD_SIZE == 0
    ensures var bytes, first := ReadCount(job, offset), offset / RECORD_SIZE;
      && offset + bytes <= |job.file| && first + bytes / RECORD_SIZE == (offset + bytes) / RECORD_SIZE <= job.Records()
      && (offset + bytes == |job.file| || (offset + bytes) % RECORD_SIZE == 0)
      && (bytes == 0 ==> offset == |job.file|)
  {
  }

  /** The buffer starts with `bytes` bytes of the file, from record `first` on. */
  ghost predicate Loaded(job: Job, buf: array<char>, first: nat, bytes: nat)
    reads buf
  {
    && bytes <= buf.Length && RECORD_SIZE * first + bytes <= |job.file|
    && forall i :: 0 <= i < bytes ==> buf[i] == job.file[RECORD_SIZE * first + i]
  }

  /** `read` at the shared offset fills the buffer from the front. */
  method Read(job: Job, buf: array<char>, offset: nat) returns (bytes: nat)
    requires buf.Length == RECORD_SIZE * job.chunk && offset <= |job.file|
    modifies buf
    ensures bytes == ReadCount(job, offset) <= buf.Length && offset + bytes <= |job.file|
    ensures forall i :: 0 <= i < bytes ==> buf[i] == job.file[offset + i]
  {
    bytes := if buf.Length <= |job.file| - offset then buf.Length else |job.file| - offset;
    forall i | 0 <= i < bytes {
      buf[i] := job.file[offset + i];
    }
  }

  /** Record `r` of the file, in a chunk that starts with record `first`. */
  lemma RecordInChunk(job: Job, buf: array<char>, first: nat, bytes: nat, ptr: nat, r: nat)
    requires Loaded(job, buf, first, bytes) && first <= r < first + bytes / RECORD_SIZE
    requires ptr == RECORD_SIZE * (r - first)
    ensures ptr + RECORD_SIZE <= buf.Length && buf[ptr..ptr + RECORD_SIZE] == job.Record(r)
  {
    assert ptr + RECORD_SIZE <= bytes && RECORD_SIZE * r == RECORD_SIZE * first + ptr;
  }

  /** The scan of one record (lines 42-48). */
  method ScanOne(job: Job, buf: array<char>, bytes: nat, first: nat, ptr: nat, r: nat) returns (events: seq<Event>)
    requires Loaded(job, buf, first, bytes) && first <= r < first + bytes / RECORD_SIZE
    requires ptr == RECORD_SIZE * (r - first)
    ensures events == RecordEvents(job, r)
  {
    RecordInChunk(job, buf, first, bytes, ptr, r);
    var offsets := ScanRecord(buf, ptr, job.word);
    HitsAreMatches(job, r, TEXT_START);
    events := [Visited(r)] + Report(job, r, offsets);
  }

  lemma {:induction false} ScanNothing(job: Job, a: nat)
    ensures ScanEvents(job, a, a) == []
  {
  }

  lemma {:induction false} ScanGrows(job: Job, a: nat, b: nat, c: nat, log: seq<Event>, events: seq<Event>)
    requires a <= b && c == b + 1 && log == ScanEvents(job, a, b) && events == RecordEvents(job, b)
    ensures log + events == ScanEvents(job, a, c)
  {
    ScanSplits(job, a, b, c);
    ScanNothing(job, c);
    assert ScanEvents(job, b, c) == events + [] == events;
  }

  /** The body of the loop over the records of a chunk (lines 42-50). */
  method ScanNext(job: Job, buf: array<char>, bytes: nat, first: nat, ptr: nat, r: nat, log: seq<Event>)
    returns (longer: seq<Event>, ptr': nat, r': nat)
    requires Loaded(job, buf, first, bytes) && first <= r < first + bytes / RECORD_SIZE
    requires ptr == RECORD_SIZE * (r - first) && log == ScanEvents(job, first, r)
    ensures r' == r + 1 && ptr' == RECORD_SIZE * (r' - first)
    ensures longer == ScanEvents(job, first, r')
  {
    var events := ScanOne(job, buf, bytes, first, ptr, r);
    longer, ptr', r' := log + events, ptr + RECORD_SIZE, r + 1;
    ScanGrows(job, first, r, r', log, events);
  }

  /** The loop over the records of a chunk (lines 39-51); `r` numbers the records in the file. */
  method ScanChunk(job: Job, buf: array<char>, bytes: nat, first: nat, last: nat) returns (log: seq<Event>)
    requires Loaded(job, buf, first, bytes) && last == first + bytes / RECORD_SIZE
    ensures log == ScanEvents(job, first, last)
  {
    log := [];
    var ptr, r := 0, first;
    ScanNothing(job, first);
    while r < last
      invariant first <= r <= last && ptr == RECORD_SIZE * (r - first)
      invariant log == ScanEvents(job, first, r)
    {
      log, ptr, r := ScanNext(job, buf, bytes, first, ptr, r, log);
    }
  }

  /** The body of the outer loop (lines 35-51); `r` and `next` number the next record before and after. */
  method ReadAndScan(job: Job, buf: array<char>, offset: nat, r: nat, log: seq<Event>)
    returns (bytes: nat, longer: seq<Event>, next: nat)
    requires 1 <= job.chunk && buf.Length == RECORD_SIZE * job.chunk && offset <= |job.file|
    requires (offset == |job.file| || offset % RECORD_SIZE == 0) && r == offset / RECORD_SIZE
    requires log == ScanEvents(job, 0, r)
    modifies buf
    ensures bytes == ReadCount(job, offset) && next == (offset + bytes) / RECORD_SIZE
    ensures longer == ScanEvents(job, 0, next)
  {
    ChunkBoundaries(job, offset);
    bytes := Read(job, buf, offset);
    next, longer := r + bytes / RECORD_SIZE, log;
    if bytes != 0 {
      var events := ScanChunk(job, buf, bytes, r, next);
      ScanSplits(job, 0, r, next);
      longer := log + events;
    }
  }

  /** A thread alone (lines 21-56 with `threads_count` 1) performs the sequential scan. */
  method ThreadFunc(job: Job) returns (log: seq<Event>)
    requires 1 <= job.chunk
    ensures log == SequentialScan(job)
  {
    var buf := new char[RECORD_SIZE * job.chunk];
    log := [];
    var offset, r, readCount := 0, 0, 1;
    while readCount != 0
      invariant offset <= |job.file| && (offset == |job.file| || offset % RECORD_SIZE == 0)
      invariant r == offset / RECORD_SIZE && (readCount == 0 ==> offset == |job.file|)
      invariant log == ScanEvents(job, 0, r)
      decreases |job.file| - offset, readCount
    {
      ChunkBoundaries(job, offset);
      readCount, log, r := ReadAndScan(job, buf, offset, r, log);
      offset := offset + readCount;
    }
  }

  lemma StepOffset(job: Job, s: State, t: nat, u: State)
    requires 1 <= job.chunk && Ready(s, t) && u == Exec(job, s, t)
    requires s.offset <= |job.file| && (s.offset == |job.file| || s.offset % RECORD_SIZE == 0)
    ensures s.offset <= u.offset <= |job.file| && (u.offset == |job.file| || u.offset % RECORD_SIZE == 0)
  {
    ChunkBoundaries(job, s.offset);
  }

  lemma StepOther(job: Job, s: State, t: nat, u: State, r: nat)
    requires Ready(s, t) && u == Exec(job, s, t) && s.offset <= u.offset <= |job.file|
    requires t < |s.pc| && r < |s.pc| && r != t && ThreadOk(job, s, r) && ThreadOk(job, s, t)
    ensures |u.pc| == |s.pc| && ThreadOk(job, u, r)
  {
  }

  lemma StepThreads(job: Job, s: State, t: nat, u: State)
    requires 1 <= job.chunk && Inv(job, s) && Ready(s, t) && u == Exec(job, s, t)
    ensures u.owner.By? ==> u.owner.thread < |u.pc|
    ensures u.offset <= |job.file| && (u.offset == |job.file| || u.offset % RECORD_SIZE == 0)
    ensures forall r :: 0 <= r < |u.pc| ==> ThreadOk(job, u, r)
  {
    StepOffset(job, s, t, u);
    StepSelf(job, s, t, u);
    forall r | 0 <= r < |u.pc| && r != t
      ensures ThreadOk(job, u, r)
    {
      assert ThreadOk(job, s, r) && ThreadOk(job, s, t);
      StepOther(job, s, t, u, r);
    }
  }

  lemma StepSelf(job: Job, s: State, t: nat, u: State)
    requires 1 <= job.chunk && Inv(job, s) && Ready(s, t) && u == Exec(job, s, t)
    ensures |u.pc| == |s.pc| && u.pc == s.pc[t := u.pc[t]] && ThreadOk(job, u, t)
  {
    assert ThreadOk(job, s, t);
    ChunkBoundaries(job, s.offset);
  }

  /** Starting a record reports its visit. */
  lemma VisitOwed(job: Job, pc: PC, next: PC, e: Event)
    requires pc.NextRecord? && pc.i < pc.count && next == Test(pc.first, pc.count, pc.i, TEXT_START)
    ensures One(Visited(pc.first + pc.i) == e) + One(Owes(job, next, e)) == One(Owes(job, pc, e))
  {
  }

  lemma OneOrLater(reported: int, here: bool, now: bool, next: bool, later: bool)
    requires reported + One(here && next) == One(here && now) && (later ==> !here)
    ensures reported + One((here && next) || later) == One((here && now) || later)
  {
  }

  /** Testing an offset reports its hit. */
  lemma TestOwed(job: Job, pc: PC, next: PC, e: Event)
    requires pc.Test? && pc.j + |job.word| < RECORD_SIZE && next == pc.(j := pc.j + 1)
    ensures Sum(HitAt(job, pc.first + pc.i, pc.j), Is(e)) + One(Owes(job, next, e)) == One(Owes(job, pc, e))
  {
    var r := pc.first + pc.i;
    CountHit(job, r, pc.j, e);
    var later := Wanted(job, r + 1, pc.first + pc.count, e);
    OneOrLater(Sum(HitAt(job, r, pc.j), Is(e)), e.r == r, IsHit(job, e, pc.j), IsHit(job, e, pc.j + 1), later);
  }

  /** What thread `t` reports in a step. */
  function Reported(job: Job, pc: PC): seq<Event> {
    match pc
    case NextRecord(first, count, i) => if i < count then [Visited(first + i)] else []
    case Test(first, count, i, j) => if RECORD_SIZE <= j + |job.word| then [] else HitAt(job, first + i, j)
    case _ => []
  }

  lemma StepLog(job: Job, s: State, t: nat, u: State)
    requires t < |s.pc| && u == Exec(job, s, t)
    ensures u.log == s.log + Reported(job, s.pc[t])
  {
  }

  /** Releasing the file, ending a record and ending a chunk report nothing and pay nothing. */
  lemma ReleaseOwed(job: Job, first: nat, bytes: nat, e: Event)
    ensures Owes(job, ReleaseFile(first, bytes), e) ==
      Owes(job, if bytes == 0 then Done else NextRecord(first, bytes / RECORD_SIZE, 0), e)
  {
  }

  lemma EndOwed(job: Job, pc: PC, next: PC, e: Event)
    requires (pc.Test? && RECORD_SIZE <= pc.j + |job.word| && next == NextRecord(pc.first, pc.count, pc.i + 1))
          || (pc.NextRecord? && pc.count == pc.i && next == WantFile)
    ensures Owes(job, pc, e) == Owes(job, next, e)
  {
  }

  /** Where a statement other than `read` leads. */
  function After(job: Job, pc: PC): PC {
    match pc
    case WantFile => ReadChunk
    case ReadChunk => ReadChunk
    case ReleaseFile(first, bytes) => if bytes == 0 then Done else NextRecord(first, bytes / RECORD_SIZE, 0)
    case ReleaseFailed => NextRecord(0, 0, 0)
    case NextRecord(first, count, i) => if i < count then Test(first, count, i, TEXT_START) else WantFile
    case Test(first, count, i, j) =>
      if RECORD_SIZE <= j + |job.word| then NextRecord(first, count, i + 1) else Test(first, count, i, j + 1)
    case Done => Done
  }

  lemma StepPlace(job: Job, s: State, t: nat, u: State)
    requires t < |s.pc| && u == Exec(job, s, t) && !s.pc[t].ReadChunk?
    ensures |u.pc| == |s.pc| && u.pc[t] == After(job, s.pc[t]) && u.offset == s.offset
  {
  }

  /** A thread that does not read stops owing exactly what it reports. */
  lemma ReportedOwed(job: Job, pc: PC, e: Event)
    requires !pc.ReadChunk? && (pc.NextRecord? ==> pc.i <= pc.count)
    ensures Sum(Reported(job, pc), Is(e)) + One(Owes(job, After(job, pc), e)) == One(Owes(job, pc, e))
  {
    var next := After(job, pc);
    match pc
    case WantFile =>
    case ReleaseFailed =>
    case Done =>
    case ReleaseFile(first, bytes) => ReleaseOwed(job, first, bytes, e);
    case NextRecord(first, count, i) =>
      if i < count {
        CountOne(Visited(first + i), e);
        VisitOwed(job, pc, next, e);
      } else {
        EndOwed(job, pc, next, e);
      }
    case Test(first, count, i, j) =>
      if j + |job.word| < RECORD_SIZE {
        TestOwed(job, pc, next, e);
      } else {
        EndOwed(job, pc, next, e);
      }
  }

  lemma StepOwed(job: Job, s: State, t: nat, u: State, e: Event)
    requires Ready(s, t) && u == Exec(job, s, t) && |u.pc| == |s.pc| && ThreadOk(job, s, t) && !s.pc[t].ReadChunk?
    ensures u.offset == s.offset
    ensures Sum(u.log, Is(e)) + One(Owes(job, u.pc[t], e)) == Sum(s.log, Is(e)) + One(Owes(job, s.pc[t], e))
  {
    StepLog(job, s, t, u);
    StepPlace(job, s, t, u);
    ReportedOwed(job, s.pc[t], e);
    SumAppend(s.log, Reported(job, s.pc[t]), Is(e));
  }

  /** One step turns owed or untouched events into reported ones. */
  lemma StepBalance(job: Job, s: State, t: nat, u: State, e: Event)
    requires 1 <= job.chunk && Ready(s, t) && u == Exec(job, s, t) && |u.pc| == |s.pc| && ThreadOk(job, s, t)
    requires s.offset <= |job.file| && (s.offset == |job.file| || s.offset % RECORD_SIZE == 0)
    ensures Sum(u.log, Is(e)) + One(Owes(job, u.pc[t], e)) + One(Untouched(job, u, e)) ==
            Sum(s.log, Is(e)) + One(Owes(job, s.pc[t], e)) + One(Untouched(job, s, e))
  {
    if s.pc[t].ReadChunk? {
      ChunkBoundaries(job, s.offset);
    } else {
      StepOwed(job, s, t, u, e);
    }
  }

  lemma StepInv(job: Job, s: State, t: nat)
    requires 1 <= job.chunk && Inv(job, s) && Ready(s, t)
    ensures Inv(job, Exec(job, s, t))
  {
    var u := Exec(job, s, t);
    assert ThreadOk(job, s, t);
    StepThreads(job, s, t, u);
    StepSelf(job, s, t, u);
    forall e
      ensures Sum(u.log, Is(e)) + Sum(u.pc, OwedW(job, e)) + One(Untouched(job, u, e)) ==
        One(Wanted(job, 0, job.Records(), e))
    {
      StepBalance(job, s, t, u, e);
      SumUpdate(s.pc, t, u.pc[t], OwedW(job, e));
    }
  }

  /** A failing read takes nothing from the file and owes nothing. */
  lemma FailInv(job: Job, s: State, t: nat)
    requires Inv(job, s) && t < |s.pc| && s.pc[t].ReadChunk?
    ensures Inv(job, s.Goto(t, ReleaseFailed))
  {
    var u := s.Goto(t, ReleaseFailed);
    forall r | 0 <= r < |u.pc|
      ensures ThreadOk(job, u, r)
    {
      assert ThreadOk(job, s, r);
    }
    forall e
      ensures Sum(u.pc, OwedW(job, e)) == Sum(s.pc, OwedW(job, e))
    {
      SumUpdate(s.pc, t, ReleaseFailed, OwedW(job, e));
    }
  }

  lemma NextInv(job: Job, s: State, act: Action)
    requires 1 <= job.chunk && Inv(job, s) && Enabled(s, act)
    ensures Inv(job, Next(job, s, act))
  {
    match act
    case Run(t) => StepInv(job, s, t);
    case ReadFails(t) => FailInv(job, s, t);
  }

  lemma {:induction false} ReachableInv(job: Job, states: seq<State>, acts: seq<Action>, k: nat)
    requires 1 <= job.chunk && Execution(job, states, acts) && Init(states[0]) && k < |states|
    ensures Inv(job, states[k])
  {
    if k == 0 {
      InitInv(job, states[0]);
    } else {
      ReachableInv(job, states, acts, k - 1);
      NextInv(job, states[k - 1], acts[k - 1]);
    }
  }

  // ------------------------------------------------------------ main results

  predicate AllDone(s: State) {
    forall t :: 0 <= t < |s.pc| ==> s.pc[t].Done?
  }

  /** At any moment, what has been reported is part of the sequential scan. */
  lemma NothingReportedTwice(job: Job, states: seq<State>, acts: seq<Action>, k: nat)
    requires 1 <= job.chunk && Execution(job, states, acts) && Init(states[0]) && k < |states|
    ensures multiset(states[k].log) <= multiset(SequentialScan(job))
  {
    ReachableInv(job, states, acts, k);
    var s := states[k];
    forall e
      ensures multiset(s.log)[e] <= multiset(SequentialScan(job))[e]
    {
      SumNonNegative(s.pc, OwedW(job, e));
      CountIsMultiplicity(s.log, e);
      SequentialScanIsExact(job, e);
    }
  }

  /** Parallel equals sequential: when all threads have finished, whatever their number and the schedule,
      the visits and hits are those of the sequential scan. */
  lemma ParallelEqualsSequential(job: Job, states: seq<State>, acts: seq<Action>, k: nat)
    requires 1 <= job.chunk && Execution(job, states, acts) && Init(states[0]) && k < |states|
    requires 1 <= |states[k].pc| && AllDone(states[k])
    ensures multiset(states[k].log) == multiset(SequentialScan(job))
  {
    ReachableInv(job, states, acts, k);
    var s := states[k];
    assert ThreadOk(job, s, 0);
    forall e
      ensures multiset(s.log)[e] == multiset(SequentialScan(job))[e]
    {
      SumConstant(s.pc, OwedW(job, e), 0);
      CountIsMultiplicity(s.log, e);
      SequentialScanIsExact(job, e);
    }
  }

  /** In every reachable state, a thread cannot execute exactly when it has ended, or it wants the file's mutex
      while another thread owns it. */
  lemma BlockedExactlyWhen(job: Job, states: seq<State>, acts: seq<Action>, k: nat, t: nat)
    requires 1 <= job.chunk && Execution(job, states, acts) && Init(states[0]) && k < |states| && t < |states[k].pc|
    ensures var s := states[k];
      !Ready(s, t) <==> s.pc[t] == Done || (s.pc[t] == WantFile && exists q: nat :: q < |s.pc| && InsideMutex(s.pc[q]))
  {
    ReachableInv(job, states, acts, k);
    var s := states[k];
    assert ThreadOk(job, s, t);
    if s.owner.By? {
      assert ThreadOk(job, s, s.owner.thread);
      assert InsideMutex(s.pc[s.owner.thread]);
    } else {
      forall q: nat | q < |s.pc|
        ensures !InsideMutex(s.pc[q])
      {
        assert ThreadOk(job, s, q);
      }
    }
  }

  predicate InsideMutex(pc: PC) {
    pc.ReadChunk? || pc.ReleaseFile? || pc.ReleaseFailed?
  }

  /** Some thread can always go on until all are done. */
  lemma DeadlockFree(job: Job, states: seq<State>, acts: seq<Action>, k: nat)
    requires 1 <= job.chunk && Execution(job, states, acts) && Init(states[0]) && k < |states|
    ensures AllDone(states[k]) || exists t :: Ready(states[k], t)
  {
    ReachableInv(job, states, acts, k);
    var s := states[k];
    if s.owner.By? {
      assert ThreadOk(job, s, s.owner.thread);
      assert Ready(s, s.owner.thread);
    } else if !AllDone(s) {
      var t: nat :| t < |s.pc| && !s.pc[t].Done?;
      assert Ready(s, t);
    }
  }

  // -------------------------------------------------------------- termination

  /** An upper bound on the steps a thread has left before it reads again, plus the steps of that read. */
  function Remaining(pc: PC): int {
    match pc
    case Done => 0
    case WantFile => 4
    case ReadChunk => 3
    case ReleaseFailed => 6
    case ReleaseFile(_, bytes) => if bytes == 0 then 1 else 7 + 1100 * (bytes / RECORD_SIZE)
    case NextRecord(_, count, i) => 5 + 1100 * (count - i)
    case Test(_, count, i, j) => 6 + 1100 * (count - i - 1) + if j < RECORD_SIZE then RECORD_SIZE - j else 0
  }

  /** The same for the whole system: unread bytes pay for their scan in advance. */
  function Budget(job: Job, s: State): int {
    10 * (|job.file| - s.offset) + Sum(s.pc, Remaining)
  }

  /** The bytes of a chunk pay for its scan. */
  lemma ChunkPays(bytes: nat)
    ensures Remaining(ReleaseFile(0, bytes)) <= 10 * bytes + 2
  {
  }

  lemma StepRemaining(job: Job, s: State, t: nat, u: State)
    requires Ready(s, t) && u == Exec(job, s, t) && |u.pc| == |s.pc| && ThreadOk(job, s, t)
    ensures Remaining(u.pc[t]) < Remaining(s.pc[t]) + 10 * (u.offset - s.offset)
  {
    match s.pc[t]
    case ReadChunk => ChunkPays(ReadCount(job, s.offset));
    case _ =>
  }

  lemma StepBudget(job: Job, s: State, t: nat)
    requires 1 <= job.chunk && Inv(job, s) && Ready(s, t)
    ensures Budget(job, Exec(job, s, t)) < Budget(job, s)
    ensures |Exec(job, s, t).pc| == |s.pc|
  {
    var u := Exec(job, s, t);
    assert ThreadOk(job, s, t);
    StepSelf(job, s, t, u);
    StepRemaining(job, s, t, u);
    SumUpdate(s.pc, t, u.pc[t], Remaining);
  }

  /** A failing read costs another round of the loop. */
  lemma FailBudget(job: Job, s: State, t: nat)
    requires t < |s.pc| && s.pc[t].ReadChunk?
    ensures Budget(job, s.Goto(t, ReleaseFailed)) == Budget(job, s) + 3
  {
    SumUpdate(s.pc, t, ReleaseFailed, Remaining);
  }

  function Failures(acts: seq<Action>): nat {
    if acts == [] then 0 else Failures(acts[..|acts| - 1]) + if acts[|acts| - 1].ReadFails? then 1 else 0
  }

  lemma {:induction false} ExecutionBudget(job: Job, states: seq<State>, acts: seq<Action>, k: nat)
    requires 1 <= job.chunk && Execution(job, states, acts) && Init(states[0]) && k < |states|
    ensures k + Budget(job, states[k]) <= Budget(job, states[0]) + 4 * Failures(acts[..k])
  {
    if k == 0 {
    } else {
      ExecutionBudget(job, states, acts, k - 1);
      ReachableInv(job, states, acts, k - 1);
      assert acts[..k][..k - 1] == acts[..k - 1];
      match acts[k - 1]
      case Run(t) => StepBudget(job, states[k - 1], t);
      case ReadFails(t) => FailBudget(job, states[k - 1], t);
    }
  }

  lemma BudgetRemains(job: Job, s: State)
    requires Inv(job, s)
    ensures 0 <= Budget(job, s)
  {
    forall t | 0 <= t < |s.pc|
      ensures 0 <= Remaining(s.pc[t])
    {
      assert ThreadOk(job, s, t);
    }
    SumNonNegative(s.pc, Remaining);
  }

  lemma BudgetStarts(job: Job, s: State)
    requires Init(s)
    ensures Budget(job, s) == 10 * |job.file| + 4 * |s.pc|
  {
    SumConstant(s.pc, Remaining, 4);
  }

  /** Every schedule of T threads takes at most 10 |file| + 4 T steps, and 4 more for each read that fails. */
  lemma {:induction false} SearchTerminates(job: Job, states: seq<State>, acts: seq<Action>)
    requires 1 <= job.chunk && Execution(job, states, acts) && Init(states[0])
    ensures |acts| <= 10 * |job.file| + 4 * |states[0].pc| + 4 * Failures(acts)
    ensures AllDone(states[|acts|]) || exists t :: Ready(states[|acts|], t)
  {
    ExecutionBudget(job, states, acts, |acts|);
    assert acts[..|acts|] == acts;
    ReachableInv(job, states, acts, |acts|);
    BudgetStarts(job, states[0]);
    BudgetRemains(job, states[|acts|]);
    DeadlockFree(job, states, acts, |acts|);
  }

  /** No read of the run succeeds. */
  ghost predicate AllReadsFail(states: seq<State>, acts: seq<Action>)
    requires |acts| <= |states|
  {
    forall k :: 0 <= k < |acts| ==>
      acts[k].t < |states[k].pc| && (states[k].pc[acts[k].t].ReadChunk? ==> acts[k].ReadFails?)
  }

  /** A thread that only meets failing reads is in the loop of lines 33-53. */
  predicate Looping(s: State) {
    && |s.pc| == 1
    && match s.pc[0]
       case WantFile => s.owner == Free
       case ReadChunk | ReleaseFailed => s.owner == By(0)
       case NextRecord(_, count, i) => s.owner == Free && count <= i
       case _ => false
  }

  /** If the file cannot be read, the search never ends: there are runs of every length. */
  lemma {:induction false} UnreadableFileLoops(job: Job, length: nat) returns (states: seq<State>, acts: seq<Action>)
    ensures Execution(job, states, acts) && Init(states[0]) && |acts| == length
    ensures AllReadsFail(states, acts) && Looping(states[|acts|])
  {
    if length == 0 {
      states, acts := [State([WantFile], Free, 0, [])], [];
    } else {
      states, acts := UnreadableFileLoops(job, length - 1);
      var s := states[|acts|];
      var act := if s.pc[0].ReadChunk? then ReadFails(0) else Run(0);
      var first := states[0];
      states, acts := states + [Next(job, s, act)], acts + [act];
      assert states[0] == first;
    }
  }
}
