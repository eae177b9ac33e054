/** A log of entries and the file it is written to: record positions are byte offsets, the strict
    reader sees the entries, and the lenient reader agrees with it on everything the writer wrote. */
module LogFiles {
  import opened Prelude
  import opened Messages
  import opened MessageLog
  import Delivery

  /** JSON encoding of a message, and decoding of a line. */
  datatype Codec = Codec(encode: Msg -> Bytes, decode: Bytes -> Option<Msg>)

  /** What is used of JSON: an encoding is a non-empty line, and decoding undoes it. */
  ghost predicate Faithful(c: Codec) {
    forall m :: c.encode(m) != [] && Whole(c.encode(m)) && c.decode(c.encode(m)) == Some(m)
  }

  type Entries = seq<Entry<Msg>>

  function Raw(c: Codec, e: Entry<Msg>): Bytes { if e.Line? then c.encode(e.msg) else e.raw }

  /** Lines that are no message: complete, and not decodable. */
  ghost predicate Written(c: Codec, log: Entries) {
    forall i :: 0 <= i < |log| && log[i].Garbage? ==> Whole(log[i].raw) && c.decode(log[i].raw).None?
  }

  function Render(c: Codec, log: Entries): Bytes {
    if log == [] then [] else Raw(c, log[0]) + [NEWLINE] + Render(c, log[1..])
  }

  /** The byte offset of record position `i`. */
  function EndOf(c: Codec, log: Entries, i: nat): nat
    requires i <= |log|
  {
    |Render(c, log[..i])|
  }

  lemma {:induction false} RenderConcat(c: Codec, a: Entries, b: Entries)
    ensures Render(c, a + b) == Render(c, a) + Render(c, b)
  {
    if a == [] {
      assert a + b == b;
    } else {
      assert (a + b)[1..] == a[1..] + b;
      RenderConcat(c, a[1..], b);
    }
  }

  /** AppendMessage writes one line at the end, and nothing before it moves. */
  lemma AppendRenders(c: Codec, log: Entries, m: Msg)
    ensures Render(c, log + [Line(m)]) == Render(c, log) + c.encode(m) + [NEWLINE]
  {
    RenderConcat(c, log, [Line(m)]);
    assert Render(c, [Line(m)]) == c.encode(m) + [NEWLINE];
  }

  /** The log on disk. */
  class MessageFile {
    var data: Bytes

    constructor ()
      ensures data == []
    {
      data := [];
    }

    /** One write of one line; `log` is any log the file renders. */
    method AppendMessage(c: Codec, m: Msg, written: bool, ghost log: Entries) returns (ok: bool)
      modifies this
      ensures ok == written
      ensures data == if ok then old(data) + c.encode(m) + [NEWLINE] else old(data)
      ensures ok && old(data) == Render(c, log) ==> data == Render(c, log + [Line(m)])
    {
      if !written { return false; }
      data := data + c.encode(m) + [NEWLINE];
      AppendRenders(c, log, m);
      return true;
    }
  }

  lemma RenderSplit(c: Codec, log: Entries, i: nat)
    requires i < |log|
    ensures Render(c, log) == Render(c, log[..i]) + (Raw(c, log[i]) + [NEWLINE] + Render(c, log[i + 1..]))
    ensures EndOf(c, log, i + 1) == EndOf(c, log, i) + |Raw(c, log[i])| + 1
  {
    assert log == log[..i] + log[i..];
    RenderConcat(c, log[..i], log[i..]);
    assert log[i..][1..] == log[i + 1..];
    assert log[..i + 1] == log[..i] + [log[i]];
    RenderConcat(c, log[..i], [log[i]]);
    assert Render(c, [log[i]]) == Raw(c, log[i]) + [NEWLINE];
  }

  lemma Middle(before: Bytes, line: Bytes, after: Bytes, tail: Bytes)
    ensures var file, from := before + (line + [NEWLINE] + after) + tail, |before|;
      from + |line| < |file| && file[from..from + |line|] == line && file[from + |line|] == NEWLINE
  {
  }

  lemma FileAt(c: Codec, log: Entries, tail: Bytes, i: nat)
    requires i < |log|
    ensures var file, from, end := Render(c, log) + tail, EndOf(c, log, i), EndOf(c, log, i + 1);
      from < end <= |file| && file[from..end - 1] == Raw(c, log[i]) && file[end - 1] == NEWLINE
  {
    RenderSplit(c, log, i);
    Middle(Render(c, log[..i]), Raw(c, log[i]), Render(c, log[i + 1..]), tail);
  }

  lemma HeadAtEntry(c: Codec, log: Entries, tail: Bytes, i: nat)
    requires Faithful(c) && Written(c, log) && i < |log|
    ensures var file := Render(c, log) + tail;
      && EndOf(c, log, i) < EndOf(c, log, i + 1) <= |file|
      && HeadAt(c.decode, file, EndOf(c, log, i))
         == (if log[i].Line? then Good(Record(log[i].msg, EndOf(c, log, i + 1))) else Bad)
  {
    FileAt(c, log, tail, i);
    var file, from, end := Render(c, log) + tail, EndOf(c, log, i), EndOf(c, log, i + 1);
    assert Whole(file[from..end - 1]);
    forall k | from <= k < end - 1 ensures file[k] != NEWLINE {
      assert file[k] == file[from..end - 1][k - from];
    }
    NextNLIs(file, from, end - 1);
  }

  lemma HeadAtEnd(c: Codec, log: Entries, tail: Bytes)
    requires Whole(tail)
    ensures EndOf(c, log, |log|) == |Render(c, log)|
    ensures HeadAt(c.decode, Render(c, log) + tail, |Render(c, log)|) == Partial
  {
    assert log[..|log|] == log;
    var file, at := Render(c, log) + tail, |Render(c, log)|;
    assert forall k :: at <= k < |file| ==> file[k] == tail[k - at];
  }

  function Lifted(c: Codec, log: Entries, recs: seq<Delivery.Rec>): seq<Record<Msg>>
    requires forall i :: 0 <= i < |recs| ==> recs[i].end <= |log|
  {
    seq(|recs|, i requires 0 <= i < |recs| => Record(recs[i].msg, EndOf(c, log, recs[i].end)))
  }

  lemma {:induction false} ReadFromBounds(log: Entries, at: nat)
    requires at <= |log|
    ensures at + |Delivery.ReadFrom(log, at)| <= |log|
    ensures forall i :: 0 <= i < |Delivery.ReadFrom(log, at)| ==> Delivery.ReadFrom(log, at)[i].end <= |log|
    decreases |log| - at
  {
    if at < |log| && log[at].Line? { ReadFromBounds(log, at + 1); }
  }

  /** What the strict reader makes of the file from record position `at` on. */
  ghost predicate Bridges(c: Codec, log: Entries, file: Bytes, at: nat) {
    at <= |log| && EndOf(c, log, at) <= |file| &&
    var recs := Delivery.ReadFrom(log, at);
    && at + |recs| <= |log|
    && (forall i :: 0 <= i < |recs| ==> recs[i].end <= |log|)
    && var r := Scan(c.decode, file, EndOf(c, log, at));
       && r.records == Lifted(c, log, recs)
       && r.next == EndOf(c, log, at + |recs|)
       && r.bad == (if at + |recs| < |log| then Some(r.next) else None)
  }

  lemma BridgeEnd(c: Codec, log: Entries, tail: Bytes)
    requires Whole(tail)
    ensures Bridges(c, log, Render(c, log) + tail, |log|)
  {
    HeadAtEnd(c, log, tail);
  }

  lemma BridgeLine(c: Codec, log: Entries, file: Bytes, at: nat)
    requires at < |log| && log[at].Line? && Bridges(c, log, file, at + 1) && EndOf(c, log, at) <= |file|
    requires HeadAt(c.decode, file, EndOf(c, log, at)) == Good(Record(log[at].msg, EndOf(c, log, at + 1)))
    ensures Bridges(c, log, file, at)
  {
    var first, rest := Delivery.Rec(log[at].msg, at + 1), Delivery.ReadFrom(log, at + 1);
    assert Delivery.ReadFrom(log, at) == [first] + rest;
    LiftedCons(c, log, first, rest);
  }

  lemma BridgeGarbage(c: Codec, log: Entries, file: Bytes, at: nat)
    requires at < |log| && log[at].Garbage? && EndOf(c, log, at) <= |file|
    requires HeadAt(c.decode, file, EndOf(c, log, at)).Bad?
    ensures Bridges(c, log, file, at)
  {
  }

  /** The bridge: from the byte offset of any record position, with any partial line at the end, the
      strict reader returns the entries the delivery model reads, at their byte offsets, and stops
      where that model stops. */
  lemma {:induction false} ReadIsReadFrom(c: Codec, log: Entries, tail: Bytes, at: nat)
    requires Faithful(c) && Written(c, log) && Whole(tail) && at <= |log|
    ensures Bridges(c, log, Render(c, log) + tail, at)
    decreases |log| - at
  {
    if at == |log| {
      BridgeEnd(c, log, tail);
    } else {
      HeadAtEntry(c, log, tail, at);
      if log[at].Line? {
        ReadIsReadFrom(c, log, tail, at + 1);
        BridgeLine(c, log, Render(c, log) + tail, at);
      } else {
        BridgeGarbage(c, log, Render(c, log) + tail, at);
      }
    }
  }

  /** Where a drained record cursor stands is, in bytes, the `next` the strict reader returns. */
  lemma NextInBytes(c: Codec, log: Entries, tail: Bytes, at: nat)
    requires Faithful(c) && Written(c, log) && Whole(tail) && at <= |log|
    ensures at + |Delivery.ReadFrom(log, at)| <= |log|
    ensures StrictRead(c.decode, Some(Render(c, log) + tail), EndOf(c, log, at)).next
         == EndOf(c, log, at + |Delivery.ReadFrom(log, at)|)
  {
    ReadIsReadFrom(c, log, tail, at);
  }

  lemma LiftedCons(c: Codec, log: Entries, first: Delivery.Rec, rest: seq<Delivery.Rec>)
    requires first.end <= |log| && forall i :: 0 <= i < |rest| ==> rest[i].end <= |log|
    ensures forall i :: 0 <= i < |[first] + rest| ==> ([first] + rest)[i].end <= |log|
    ensures Lifted(c, log, [first] + rest) == [Record(first.msg, EndOf(c, log, first.end))] + Lifted(c, log, rest)
  {
  }

  // ----- the lenient reader -----

  ghost predicate AllMessages(log: Entries) {
    forall i :: 0 <= i < |log| ==> log[i].Line?
  }

  function Encodings(c: Codec, log: Entries): seq<Bytes> {
    if log == [] then [] else [Raw(c, log[0])] + Encodings(c, log[1..])
  }

  function MessagesOf(log: Entries): seq<Msg>
    requires AllMessages(log)
  {
    if log == [] then [] else MessagesOf(log[..|log| - 1]) + [log[|log| - 1].msg]
  }

  lemma SplitLine(line: Bytes, rest: Bytes)
    requires Whole(line)
    ensures Split(line + [NEWLINE] + rest) == [line] + Split(rest)
    ensures Split(line) == [line]
  {
    var data := line + [NEWLINE] + rest;
    NextNLIs(data, 0, |line|);
    assert data[..|line|] == line && data[|line| + 1..] == rest;
    assert NextNL(line, 0) == |line| && line[..|line|] == line;
  }

  lemma {:induction false} SplitRender(c: Codec, log: Entries)
    requires Faithful(c) && AllMessages(log) && log != []
    ensures Split(TrimSuffix(Render(c, log))) == Encodings(c, log)
  {
    var line, rest := Raw(c, log[0]), log[1..];
    if rest == [] {
      assert Render(c, log) == line + [NEWLINE];
      assert TrimSuffix(line + [NEWLINE]) == line;
      SplitLine(line, []);
    } else {
      RenderEnds(c, rest);
      SplitRender(c, rest);
      assert TrimSuffix(line + [NEWLINE] + Render(c, rest)) == line + [NEWLINE] + TrimSuffix(Render(c, rest));
      SplitLine(line, TrimSuffix(Render(c, rest)));
    }
  }

  lemma {:induction false} RenderEnds(c: Codec, log: Entries)
    requires log != []
    ensures Render(c, log) != [] && Render(c, log)[|Render(c, log)| - 1] == NEWLINE
  {
    if |log| > 1 { RenderEnds(c, log[1..]); }
  }

  lemma {:induction false} DecodeEncodings(c: Codec, log: Entries)
    requires Faithful(c) && AllMessages(log)
    ensures DecodeAll(c.decode, Encodings(c, log)) == MessagesOf(log)
  {
    if log != [] {
      var init, last := log[..|log| - 1], log[|log| - 1];
      DecodeEncodings(c, init);
      EncodingsSnoc(c, init, last);
      assert log == init + [last];
      var all := Encodings(c, log);
      assert all[..|all| - 1] == Encodings(c, init);
    }
  }

  lemma {:induction false} EncodingsSnoc(c: Codec, init: Entries, last: Entry<Msg>)
    ensures Encodings(c, init + [last]) == Encodings(c, init) + [Raw(c, last)]
  {
    if init != [] {
      assert (init + [last])[1..] == init[1..] + [last];
      EncodingsSnoc(c, init[1..], last);
    }
  }

  lemma RenderDrop(c: Codec, log: Entries, at: nat)
    requires at <= |log|
    ensures EndOf(c, log, at) <= |Render(c, log)| && Render(c, log)[EndOf(c, log, at)..] == Render(c, log[at..])
  {
    assert log == log[..at] + log[at..];
    RenderConcat(c, log[..at], log[at..]);
  }

  /** On a log the writer wrote, the lenient reader returns every message after any record position
      and moves to the end of the file. */
  lemma LenientRead(c: Codec, log: Entries, at: nat)
    requires Faithful(c) && AllMessages(log) && at <= |log|
    ensures var (lines, next) := TailOf(Some(Render(c, log)), EndOf(c, log, at));
      DecodeAll(c.decode, lines) == MessagesOf(log[at..]) && next == EndOf(c, log, |log|)
  {
    RenderDrop(c, log, at);
    assert log[..|log|] == log;
    var rest := log[at..];
    if rest == [] {
      assert Split(TrimSuffix(Render(c, rest))) == [[]];
    } else {
      SplitRender(c, rest);
      assert Encodings(c, rest)[0] == c.encode(rest[0].msg) != [];
      DecodeEncodings(c, rest);
    }
  }

  lemma {:induction false} MessagesAt(log: Entries, i: nat)
    requires AllMessages(log) && i < |log|
    ensures |MessagesOf(log)| == |log| && MessagesOf(log)[i] == log[i].msg
  {
    var init := log[..|log| - 1];
    if i < |init| { MessagesAt(init, i); } else if init != [] { MessagesAt(init, 0); }
  }

  lemma {:induction false} ReadFromAll(log: Entries, at: nat)
    requires AllMessages(log) && at <= |log|
    ensures |Delivery.ReadFrom(log, at)| == |log| - at
    ensures forall i :: 0 <= i < |log| - at ==>
      Delivery.ReadFrom(log, at)[i] == Delivery.Rec(log[at + i].msg, at + i + 1)
    decreases |log| - at
  {
    if at < |log| {
      ReadFromAll(log, at + 1);
      var all, rest := Delivery.ReadFrom(log, at), Delivery.ReadFrom(log, at + 1);
      forall i | 1 <= i < |log| - at ensures all[i] == Delivery.Rec(log[at + i].msg, at + i + 1) {
        assert all[i] == rest[i - 1];
      }
    }
  }

  /** With nothing but messages in the log, the strict reader gets to the end of it. */
  lemma StrictReadsOn(c: Codec, log: Entries, at: nat, r: Reading<Msg>)
    requires Faithful(c) && AllMessages(log) && at <= |log| && Bridges(c, log, Render(c, log), at)
    requires r == StrictRead(c.decode, Some(Render(c, log)), EndOf(c, log, at))
    requires |Delivery.ReadFrom(log, at)| == |log| - at
    ensures r.bad.None? && r.next == EndOf(c, log, |log|) && r.records == Lifted(c, log, Delivery.ReadFrom(log, at))
  {
  }

  lemma StrictReadAll(c: Codec, log: Entries, at: nat, r: Reading<Msg>)
    requires Faithful(c) && AllMessages(log) && at <= |log|
    requires r == StrictRead(c.decode, Some(Render(c, log)), EndOf(c, log, at))
    ensures r.bad.None? && r.next == EndOf(c, log, |log|) && |r.records| == |log| - at
    ensures forall i :: 0 <= i < |log| - at ==> r.records[i].msg == log[at + i].msg
  {
    ReadFromAll(log, at);
    assert Render(c, log) + [] == Render(c, log);
    ReadIsReadFrom(c, log, [], at);
    StrictReadsOn(c, log, at, r);
    LiftedMessages(c, log, Delivery.ReadFrom(log, at));
  }

  lemma LiftedMessages(c: Codec, log: Entries, recs: seq<Delivery.Rec>)
    requires forall i :: 0 <= i < |recs| ==> recs[i].end <= |log|
    ensures |Lifted(c, log, recs)| == |recs|
    ensures forall i :: 0 <= i < |recs| ==> Lifted(c, log, recs)[i].msg == recs[i].msg
  {
  }

  lemma LenientReadAll(c: Codec, log: Entries, at: nat)
    requires Faithful(c) && AllMessages(log) && at <= |log|
    ensures var (lines, next) := TailOf(Some(Render(c, log)), EndOf(c, log, at));
      && next == EndOf(c, log, |log|) && |DecodeAll(c.decode, lines)| == |log| - at
      && forall i :: 0 <= i < |log| - at ==> DecodeAll(c.decode, lines)[i] == log[at + i].msg
  {
    LenientRead(c, log, at);
    var rest := log[at..];
    forall i | 0 <= i < |rest| ensures |MessagesOf(rest)| == |rest| && MessagesOf(rest)[i] == rest[i].msg {
      MessagesAt(rest, i);
    }
    assert forall i :: 0 <= i < |rest| ==> rest[i] == log[at + i];
  }

  /** From every record position the two readers return the same messages and the same next offset. */
  lemma ReadersAgree(c: Codec, log: Entries, at: nat)
    requires Faithful(c) && AllMessages(log) && at <= |log|
    ensures var strict := StrictRead(c.decode, Some(Render(c, log)), EndOf(c, log, at));
      && var (lines, next) := TailOf(Some(Render(c, log)), EndOf(c, log, at));
      && var lenient := DecodeAll(c.decode, lines);
      && strict.bad.None? && strict.next == next && |strict.records| == |lenient|
      && forall i :: 0 <= i < |lenient| ==> strict.records[i].msg == lenient[i]
  {
    StrictReadAll(c, log, at, StrictRead(c.decode, Some(Render(c, log)), EndOf(c, log, at)));
    LenientReadAll(c, log, at);
  }
}
