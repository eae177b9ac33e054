/** The JSONL message log as bytes: the strict reader the worker uses, the lenient one the inbox
    uses, and the writer both rely on. Decoding a line is a parameter. */
module MessageLog {
  import opened Prelude
  import opened Messages

  type Bytes = seq<int>

  const NEWLINE := 10

  datatype Record<+M> = Record(msg: M, end: nat)

  /** `bad` is the offset of a complete line that does not decode. */
  datatype Reading<+M> = Reading(records: seq<Record<M>>, next: nat, bad: Option<nat>)

  predicate Whole(line: Bytes) {
    forall k :: 0 <= k < |line| ==> line[k] != NEWLINE
  }

  /** bytes.IndexByte for a newline at or after `pos`; the length when there is none. */
  function NextNL(log: Bytes, pos: nat): (i: nat)
    requires pos <= |log|
    ensures pos <= i <= |log| && (i < |log| ==> log[i] == NEWLINE)
    ensures forall k :: pos <= k < i ==> log[k] != NEWLINE
    decreases |log| - pos
  {
    if pos == |log| || log[pos] == NEWLINE then pos else NextNL(log, pos + 1)
  }

  /** What lies at `pos`: no complete line, one that does not decode, or a record. */
  datatype Head<+M> = Partial | Bad | Good(rec: Record<M>)

  function HeadAt<M>(decode: Bytes -> Option<M>, log: Bytes, pos: nat): (h: Head<M>)
    requires pos <= |log|
    ensures h.Good? ==> pos < h.rec.end <= |log|
  {
    var nl := NextNL(log, pos);
    if nl == |log| then Partial
    else match decode(log[pos..nl]) case None => Bad case Some(m) => Good(Record(m, nl + 1))
  }

  /** What the strict reader should find: complete lines that decode, up to the first that does not. */
  function Scan<M>(decode: Bytes -> Option<M>, log: Bytes, pos: nat): Reading<M>
    requires pos <= |log|
    decreases |log| - pos
  {
    match HeadAt(decode, log, pos)
    case Partial => Reading([], pos, None)
    case Bad => Reading([], pos, Some(pos))
    case Good(rec) => Then(rec, Scan(decode, log, rec.end))
  }

  function Then<M>(first: Record<M>, rest: Reading<M>): Reading<M> {
    rest.(records := [first] + rest.records)
  }

  function From(log: Bytes, offset: nat): (o: nat)
    ensures o <= |log|
  {
    if |log| < offset then 0 else offset
  }

  /** An absent file reads as nothing; a file shorter than the cursor is read from its beginning. */
  function StrictRead<M>(decode: Bytes -> Option<M>, file: Option<Bytes>, offset: nat): Reading<M> {
    match file
    case None => Reading([], offset, None)
    case Some(log) => Scan(decode, log, From(log, offset))
  }

  /** bytes.LastIndexByte plus one, never before `pos`. */
  function AfterLastNL(log: Bytes, pos: nat, end: nat): (i: nat)
    requires pos <= end <= |log|
    ensures pos <= i <= end
    decreases end
  {
    if end == pos || log[end - 1] == NEWLINE then end else AfterLastNL(log, pos, end - 1)
  }

  /** Up to the last newline there is always another complete line, and after it there is none. */
  lemma {:induction false} LastNLIs(log: Bytes, pos: nat, end: nat)
    requires pos <= end <= |log|
    ensures var last := AfterLastNL(log, pos, end);
      (last > pos ==> log[last - 1] == NEWLINE) && forall k :: last <= k < end ==> log[k] != NEWLINE
    decreases end
  {
    if end != pos && log[end - 1] != NEWLINE { LastNLIs(log, pos, end - 1); }
  }

  ghost predicate EndsLines(log: Bytes, pos: nat, end: nat)
    requires pos <= |log|
  {
    if pos < end then NextNL(log, pos) < end <= |log| else pos == end && NextNL(log, pos) == |log|
  }

  lemma LastEndsLines(log: Bytes, base: nat, pos: nat)
    requires base <= |log| && base <= pos <= AfterLastNL(log, base, |log|)
    ensures EndsLines(log, pos, AfterLastNL(log, base, |log|))
  {
    LastNLIs(log, base, |log|);
  }

  /** The loop's remaining work, with the records it already has. */
  function Resume<M>(decode: Bytes -> Option<M>, log: Bytes, pos: nat, done: seq<Record<M>>): Reading<M>
    requires pos <= |log|
    decreases |log| - pos
  {
    match HeadAt(decode, log, pos)
    case Partial => Reading(done, pos, None)
    case Bad => Reading(done, pos, Some(pos))
    case Good(rec) => Resume(decode, log, rec.end, done + [rec])
  }

  lemma {:induction false} ResumeIsScan<M>(decode: Bytes -> Option<M>, log: Bytes, pos: nat, done: seq<Record<M>>)
    requires pos <= |log|
    ensures Resume(decode, log, pos, done) == After(done, Scan(decode, log, pos))
    decreases |log| - pos
  {
    var h := HeadAt(decode, log, pos);
    if h.Good? {
      ResumeIsScan(decode, log, h.rec.end, done + [h.rec]);
      AfterSnoc(done, h.rec, Scan(decode, log, h.rec.end));
    }
  }

  method ReadCompleteMessageRecords<M>(decode: Bytes -> Option<M>, file: Option<Bytes>, offset: nat)
    returns (r: Reading<M>)
    ensures r == StrictRead(decode, file, offset)
  {
    if file.Some? { ResumeIsScan(decode, file.value, From(file.value, offset), []); }
    if file.None? { return Reading([], offset, None); }
    var log := file.value;
    var pos := if |log| < offset then 0 else offset;
    var end := AfterLastNL(log, pos, |log|);
    ghost var base := pos;
    var records: seq<Record<M>> := [];
    while pos < end
      invariant base <= pos <= end
      invariant Resume(decode, log, base, []) == Resume(decode, log, pos, records)
    {
      var nl := NextNL(log, pos);
      var msg := decode(log[pos..nl]);
      LastEndsLines(log, base, pos);
      if msg.None? { return Reading(records, pos, Some(pos)); }
      records := records + [Record(msg.value, nl + 1)];
      pos := nl + 1;
    }
    LastEndsLines(log, base, pos);
    return Reading(records, end, None);
  }

  function After<M>(done: seq<Record<M>>, rest: Reading<M>): Reading<M> {
    rest.(records := done + rest.records)
  }

  lemma AfterSnoc<M>(done: seq<Record<M>>, next: Record<M>, rest: Reading<M>)
    ensures After(done, Then(next, rest)) == After(done + [next], rest)
  {
    assert done + ([next] + rest.records) == (done + [next]) + rest.records;
  }

  // ----- what a reading means -----

  /** Where record `i` of a reading that began at `base` starts. */
  function StartOf<M>(records: seq<Record<M>>, base: nat, i: nat): nat
    requires i <= |records|
  {
    if i == 0 then base else records[i - 1].end
  }

  /** One newline-terminated line, decoded, its offset just past the newline. */
  ghost predicate IsLine<M>(decode: Bytes -> Option<M>, log: Bytes, from: nat, rec: Record<M>) {
    && from < rec.end <= |log| && log[rec.end - 1] == NEWLINE && Whole(log[from..rec.end - 1])
    && decode(log[from..rec.end - 1]) == Some(rec.msg)
  }

  ghost predicate Each<M>(line: (nat, Record<M>) -> bool, base: nat, records: seq<Record<M>>) {
    forall i :: 0 <= i < |records| ==> line(StartOf(records, base, i), records[i])
  }

  ghost function LineOf<M>(decode: Bytes -> Option<M>, log: Bytes): (nat, Record<M>) -> bool {
    (from: nat, rec: Record<M>) => IsLine(decode, log, from, rec)
  }

  ghost predicate Lines<M>(decode: Bytes -> Option<M>, log: Bytes, base: nat, records: seq<Record<M>>) {
    Each(LineOf(decode, log), base, records)
  }

  lemma StartCons<M>(first: Record<M>, rest: seq<Record<M>>, base: nat, i: nat)
    requires 1 <= i <= |rest| + 1
    ensures StartOf([first] + rest, base, i) == StartOf(rest, first.end, i - 1)
  {
  }

  lemma EachCons<M>(line: (nat, Record<M>) -> bool, base: nat, first: Record<M>, rest: seq<Record<M>>)
    requires line(base, first) && Each(line, first.end, rest)
    ensures Each(line, base, [first] + rest)
  {
    forall i | 0 <= i < |[first] + rest| ensures line(StartOf([first] + rest, base, i), ([first] + rest)[i]) {
      if i > 0 { StartCons(first, rest, base, i); }
    }
  }

  lemma LinesCons<M>(decode: Bytes -> Option<M>, log: Bytes, base: nat, first: Record<M>, rest: seq<Record<M>>)
    requires IsLine(decode, log, base, first) && Lines(decode, log, first.end, rest)
    ensures Lines(decode, log, base, [first] + rest)
    ensures StartOf([first] + rest, base, |rest| + 1) == StartOf(rest, first.end, |rest|)
  {
    StartCons(first, rest, base, |rest| + 1);
    EachCons(LineOf(decode, log), base, first, rest);
  }

  lemma HeadIs<M>(decode: Bytes -> Option<M>, log: Bytes, pos: nat)
    requires pos <= |log|
    ensures match HeadAt(decode, log, pos)
      case Partial => Whole(log[pos..])
      case Bad => NextNL(log, pos) < |log| && decode(log[pos..NextNL(log, pos)]).None?
      case Good(rec) => IsLine(decode, log, pos, rec)
  {
  }

  /** A reading covers [base, next) with whole lines, one a record. */
  lemma {:induction false} ScanIsLines<M>(decode: Bytes -> Option<M>, log: Bytes, base: nat)
    requires base <= |log|
    ensures var r := Scan(decode, log, base);
      base <= r.next <= |log| && Lines(decode, log, base, r.records) && r.next == StartOf(r.records, base, |r.records|)
    decreases |log| - base
  {
    var h := HeadAt(decode, log, base);
    if h.Good? {
      HeadIs(decode, log, base);
      ScanIsLines(decode, log, h.rec.end);
      LinesCons(decode, log, base, h.rec, Scan(decode, log, h.rec.end).records);
    }
  }

  /** It stops either at a partial line or in front of a complete line that does not decode. */
  lemma {:induction false} ScanStops<M>(decode: Bytes -> Option<M>, log: Bytes, base: nat)
    requires base <= |log|
    ensures var r := Scan(decode, log, base);
      && r.next <= |log|
      && HeadAt(decode, log, r.next) == (if r.bad.None? then Partial else Bad)
      && (r.bad.Some? ==> r.bad == Some(r.next))
    decreases |log| - base
  {
    var h := HeadAt(decode, log, base);
    if h.Good? { ScanStops(decode, log, h.rec.end); }
  }

  /** Without records the cursor stays put, so the worker's "no records but an advance" branch is dead. */
  lemma NothingReadNothingPassed<M>(decode: Bytes -> Option<M>, file: Option<Bytes>, offset: nat)
    ensures var r := StrictRead(decode, file, offset);
      r.records == [] ==> r.next <= offset && (file.Some? && offset <= |file.value| ==> r.next == offset)
  {
    if file.Some? { ScanIsLines(decode, file.value, From(file.value, offset)); }
  }

  lemma NextNLIs(log: Bytes, pos: nat, i: nat)
    requires pos <= i < |log| && log[i] == NEWLINE && forall k :: pos <= k < i ==> log[k] != NEWLINE
    ensures NextNL(log, pos) == i
  {
  }

  lemma HeadExtends<M>(decode: Bytes -> Option<M>, log: Bytes, ext: Bytes, pos: nat)
    requires pos <= |log| && HeadAt(decode, log, pos).Good?
    ensures HeadAt(decode, log + ext, pos) == HeadAt(decode, log, pos)
  {
    var nl := NextNL(log, pos);
    NextNLIs(log + ext, pos, nl);
    assert (log + ext)[pos..nl] == log[pos..nl];
  }

  lemma {:induction false} ScanExtends<M>(decode: Bytes -> Option<M>, log: Bytes, ext: Bytes, pos: nat)
    requires pos <= |log|
    ensures var first := Scan(decode, log, pos);
      first.next <= |log| && Scan(decode, log + ext, pos) == After(first.records, Scan(decode, log + ext, first.next))
    decreases |log| - pos
  {
    var h := HeadAt(decode, log, pos);
    if h.Good? {
      HeadExtends(decode, log, ext, pos);
      ScanExtends(decode, log, ext, h.rec.end);
      var rest := Scan(decode, log, h.rec.end);
      ThenAfter(h.rec, rest.records, Scan(decode, log + ext, rest.next));
    }
  }

  lemma ThenAfter<M>(first: Record<M>, done: seq<Record<M>>, rest: Reading<M>)
    ensures Then(first, After(done, rest)) == After([first] + done, rest)
  {
    assert [first] + (done + rest.records) == ([first] + done) + rest.records;
  }

  /** Reading is resumable: stopping at any moment and going on later from the returned cursor gives
      what one read of the grown log would have given, down to the first bad line. */
  lemma ResumableRead<M>(decode: Bytes -> Option<M>, log: Bytes, ext: Bytes, offset: nat)
    requires offset <= |log|
    ensures var first := StrictRead(decode, Some(log), offset);
      && offset <= first.next <= |log|
      && StrictRead(decode, Some(log + ext), offset)
         == After(first.records, StrictRead(decode, Some(log + ext), first.next))
  {
    ScanExtends(decode, log, ext, offset);
    ScanIsLines(decode, log, offset);
  }

  // ----- the queue report -----

  datatype QueueStatus = QueueStatus(pendingRecords: nat, pendingBytes: nat, blocked: bool, bad: Option<nat>)

  /** `statFails` and `readFails` are failures of the file system other than an absent file. */
  method InspectCodexQueue<M>(decode: Bytes -> Option<M>, file: Option<Bytes>, offset: nat, statFails: bool,
                              readFails: bool)
    returns (q: QueueStatus)
    ensures statFails ==> q == QueueStatus(0, 0, true, None)
    ensures !statFails ==>
      q.pendingBytes == if file.Some? && offset < |file.value| then |file.value| - offset else 0
    ensures !statFails && readFails ==> q.pendingRecords == 0 && q.blocked && q.bad == None
    ensures !statFails && !readFails ==>
      var r := StrictRead(decode, file, offset);
      q.pendingRecords == |r.records| && q.bad == r.bad && (q.blocked <==> r.bad.Some?)
  {
    if statFails { return QueueStatus(0, 0, true, None); }
    var pending: int := 0;
    if file.Some? {
      pending := |file.value| - offset;
      if pending < 0 { pending := 0; }
    }
    if readFails { return QueueStatus(0, pending, true, None); }
    var r := ReadCompleteMessageRecords(decode, file, offset);
    q := QueueStatus(|r.records|, pending, r.bad.Some?, r.bad);
  }

  /** The summed lengths of the first `i` records, each from its start to past its newline. */
  function Lengths<M>(records: seq<Record<M>>, base: nat, i: nat): int
    requires i <= |records|
  {
    if i == 0 then 0 else Lengths(records, base, i - 1) + (StartOf(records, base, i) - StartOf(records, base, i - 1))
  }

  lemma {:induction false} LengthsTelescope<M>(records: seq<Record<M>>, base: nat, i: nat)
    requires i <= |records|
    ensures Lengths(records, base, i) == StartOf(records, base, i) - base
  {
    if i > 0 { LengthsTelescope(records, base, i - 1); }
  }

  /** An unblocked queue's pending bytes are its pending records plus one partial line, if any. */
  lemma PendingBytesAdd<M>(decode: Bytes -> Option<M>, log: Bytes, offset: nat)
    requires offset <= |log| && StrictRead(decode, Some(log), offset).bad.None?
    ensures var r := StrictRead(decode, Some(log), offset);
      && r.next <= |log| && Whole(log[r.next..])
      && |log| - offset == Lengths(r.records, offset, |r.records|) + |log[r.next..]|
  {
    ScanIsLines(decode, log, offset);
    ScanStops(decode, log, offset);
    HeadIs(decode, log, Scan(decode, log, offset).next);
    var records := Scan(decode, log, offset).records;
    LengthsTelescope(records, offset, |records|);
  }

  // ----- the lenient reader -----

  /** strings.Split on newlines. */
  function Split(data: Bytes): seq<Bytes> {
    var nl := NextNL(data, 0);
    if nl == |data| then [data] else [data[..nl]] + Split(data[nl + 1..])
  }

  function TrimSuffix(data: Bytes): Bytes {
    if data != [] && data[|data| - 1] == NEWLINE then data[..|data| - 1] else data
  }

  method Tail(file: Option<Bytes>, cursor: nat) returns (lines: seq<Bytes>, nextOffset: nat)
    ensures (lines, nextOffset) == TailOf(file, cursor)
  {
    if file.None? { return [], cursor; }
    var offset := cursor;
    if |file.value| < offset { offset := 0; }
    var data := file.value[offset..];
    lines := Split(TrimSuffix(data));
    if |lines| == 1 && lines[0] == [] { lines := []; }
    nextOffset := offset + |data|;
  }

  function TailOf(file: Option<Bytes>, cursor: nat): (seq<Bytes>, nat) {
    match file
    case None => ([], cursor)
    case Some(log) =>
      var lines := Split(TrimSuffix(log[From(log, cursor)..]));
      (if lines == [[]] then [] else lines, |log|)
  }

  function DecodeAll<M>(decode: Bytes -> Option<M>, lines: seq<Bytes>): seq<M> {
    if lines == [] then [] else
    var init := DecodeAll(decode, lines[..|lines| - 1]);
    match decode(lines[|lines| - 1]) case None => init case Some(m) => init + [m]
  }

  method ReadMessages<M>(decode: Bytes -> Option<M>, file: Option<Bytes>, offset: nat) returns (out: seq<M>, next: nat)
    ensures out == DecodeAll(decode, TailOf(file, offset).0) && next == TailOf(file, offset).1
  {
    var lines, n := Tail(file, offset);
    out := [];
    for i := 0 to |lines|
      invariant out == DecodeAll(decode, lines[..i])
    {
      assert lines[..i + 1][..i] == lines[..i];
      var msg := decode(lines[i]);
      if msg.Some? { out := out + [msg.value]; }
    }
    assert lines[..|lines|] == lines;
    next := n;
  }

  /** Reading leniently keeps exactly the lines that decode, in order. */
  lemma {:induction false} DecodedAre<M>(decode: Bytes -> Option<M>, lines: seq<Bytes>) returns (at: seq<nat>)
    ensures Selects(DecodeAll(decode, lines), lines, decode, at)
  {
    if lines == [] {
      at := [];
    } else {
      var init, last := lines[..|lines| - 1], lines[|lines| - 1];
      at := DecodedAre(decode, init);
      assert lines == init + [last];
      at := SelectsSnoc(DecodeAll(decode, init), init, decode, at, last, DecodeAll(decode, lines), lines);
    }
  }

  function JoinLines(lines: seq<Bytes>): Bytes {
    if lines == [] then [] else if |lines| == 1 then lines[0] else lines[0] + [NEWLINE] + JoinLines(lines[1..])
  }

  ghost predicate AllWhole(lines: seq<Bytes>) { forall i :: 0 <= i < |lines| ==> Whole(lines[i]) }

  /** Splitting cuts at every newline and loses nothing else. */
  lemma {:induction false} SplitIs(data: Bytes)
    ensures Split(data) != [] && AllWhole(Split(data)) && JoinLines(Split(data)) == data
    decreases |data|
  {
    var nl := NextNL(data, 0);
    if nl < |data| {
      SplitIs(data[nl + 1..]);
      assert ([data[..nl]] + Split(data[nl + 1..]))[1..] == Split(data[nl + 1..]);
      assert data == data[..nl] + [NEWLINE] + data[nl + 1..];
    }
  }

  /** The lenient reader's lines are those of the file from the cursor on, or from its beginning when the
      file is shorter, and the strict reader starts over in the same way. */
  lemma ReadersStartOver<M>(decode: Bytes -> Option<M>, log: Bytes, cursor: nat)
    ensures var from := if cursor <= |log| then cursor else 0; var (lines, next) := TailOf(Some(log), cursor);
      && next == |log| && AllWhole(lines)
      && (lines == [] ==> log[from..] in {[], [NEWLINE]})
      && (lines != [] ==> log[from..] in {JoinLines(lines), JoinLines(lines) + [NEWLINE]})
    ensures cursor > |log| ==> StrictRead(decode, Some(log), cursor) == StrictRead(decode, Some(log), 0)
  {
    var data := log[From(log, cursor)..];
    SplitIs(TrimSuffix(data));
    if data != [] && data[|data| - 1] == NEWLINE { assert data == TrimSuffix(data) + [NEWLINE]; }
  }
}
