/** Polling the inbox: a cursor of its own over the same log, moved by the polls that save it. */
module Inbox {
  import opened Prelude
  import opened Messages
  import opened MessageLog
  import opened LogFiles

  function Others(nick: string, msgs: seq<Msg>): seq<Msg> {
    if msgs == [] then [] else
    var init, last := Others(nick, msgs[..|msgs| - 1]), msgs[|msgs| - 1];
    if last.nick == nick then init else init + [last]
  }

  /** What a reader called `nick` is shown: every message but its own. */
  function NotBy(nick: string): Msg -> Option<Msg> {
    (m: Msg) => if m.nick != nick then Some(m) else None
  }

  lemma {:induction false} OthersAreNotBy(nick: string, msgs: seq<Msg>) returns (at: seq<nat>)
    ensures Selects(Others(nick, msgs), msgs, NotBy(nick), at)
  {
    if msgs == [] {
      at := [];
    } else {
      var init, last := msgs[..|msgs| - 1], msgs[|msgs| - 1];
      at := OthersAreNotBy(nick, init);
      assert msgs == init + [last];
      at := SelectsSnoc(Others(nick, init), init, NotBy(nick), at, last, Others(nick, msgs), msgs);
    }
  }

  /** The cursor file; `None` when there is none or it cannot be read, which a poll does not report. */
  class CursorFile {
    var cursor: Option<nat>

    constructor ()
      ensures cursor == None
    {
      cursor := None;
    }

    method PollMessages(c: Codec, file: Option<Bytes>, failed: bool, replay: bool, nick: string, written: bool)
      returns (result: seq<Msg>, ok: bool)
      modifies this
      ensures ok <==> !failed && written
      ensures failed ==> result == [] && cursor == old(cursor)
      ensures !failed ==>
        var (lines, next) := TailOf(file, if replay then 0 else old(cursor).GetOr(0));
        && result == Others(nick, DecodeAll(c.decode, lines))
        && (exists at :: Selects(result, DecodeAll(c.decode, lines), NotBy(nick), at))
        && cursor == if written then Some(next) else old(cursor)
    {
      var offset: nat := cursor.GetOr(0);
      if replay { offset := 0; }
      if failed { return [], false; }
      var msgs, next := ReadMessages(c.decode, file, offset);
      result := [];
      for i := 0 to |msgs|
        invariant result == Others(nick, msgs[..i]) && cursor == old(cursor)
      {
        assert msgs[..i + 1][..i] == msgs[..i];
        if msgs[i].nick != nick { result := result + [msgs[i]]; }
      }
      assert msgs[..|msgs|] == msgs;
      ghost var at := OthersAreNotBy(nick, msgs);
      if written { cursor := Some(next); }
      ok := written;
    }
  }

  // ----- many polls -----

  /** A poll that has read: from which cursor, up to where, and what. `start` and `end` are the record
      positions of the two offsets. */
  datatype Poll = Poll(nick: string, from: nat, next: nat, msgs: seq<Msg>, done: bool, start: nat, end: nat)

  /** `passed` is everything that saved polls have read, and `returned` what they handed out of it. */
  datatype State = State(log: Entries, cursor: nat, at: nat, polls: seq<Poll>, passed: seq<Msg>, returned: seq<Msg>)

  const BIRTH := State([], 0, 0, [], [], [])

  /** Polls may overlap, replay, find the cursor unreadable, or never get to save. */
  datatype Event = Received(msg: Msg) | Read(nick: string, replay: bool, readable: bool) | Saved(poll: nat)

  /** Does this event save a poll that has not been saved yet? */
  predicate Saves(s: State, e: Event) { e.Saved? && e.poll < |s.polls| && !s.polls[e.poll].done }

  function Next(c: Codec, s: State, e: Event): State {
    match e
    case Received(m) => s.(log := s.log + [Line(m)])
    case Read(nick, replay, readable) =>
      var anew := replay || !readable;
      var from := if anew then 0 else s.cursor;
      var (lines, next) := TailOf(Some(Render(c, s.log)), from);
      var p := Poll(nick, from, next, DecodeAll(c.decode, lines), false, if anew then 0 else s.at, |s.log|);
      s.(polls := s.polls + [p])
    case Saved(i) =>
      if !Saves(s, e) then s else
      var p := s.polls[i];
      var polls := s.polls[i := p.(done := true)];
      State(s.log, p.next, p.end, polls, s.passed + p.msgs, s.returned + Others(p.nick, p.msgs))
  }

  function Polls(c: Codec, events: seq<Event>): State {
    if events == [] then BIRTH else Next(c, Polls(c, events[..|events| - 1]), events[|events| - 1])
  }

  // ----- what the polls have read -----

  ghost predicate PollOk(c: Codec, log: Entries, p: Poll) {
    && AllMessages(log) && p.start <= p.end <= |log|
    && p.from == EndOf(c, log, p.start) && p.next == EndOf(c, log, p.end)
    && p.msgs == MessagesOf(log[p.start..p.end])
  }

  ghost predicate Valid(c: Codec, s: State) {
    && AllMessages(s.log) && s.at <= |s.log| && s.cursor == EndOf(c, s.log, s.at)
    && forall i :: 0 <= i < |s.polls| ==> PollOk(c, s.log, s.polls[i])
  }

  lemma PollStays(c: Codec, log: Entries, p: Poll, m: Msg)
    requires PollOk(c, log, p)
    ensures PollOk(c, log + [Line(m)], p)
  {
    var more := log + [Line(m)];
    assert more[..p.start] == log[..p.start] && more[..p.end] == log[..p.end];
    assert more[p.start..p.end] == log[p.start..p.end];
  }

  lemma ReceivedKeeps(c: Codec, s: State, m: Msg)
    requires Valid(c, s)
    ensures Valid(c, Next(c, s, Received(m)))
  {
    assert (s.log + [Line(m)])[..s.at] == s.log[..s.at];
    forall i | 0 <= i < |s.polls| ensures PollOk(c, s.log + [Line(m)], s.polls[i]) {
      PollStays(c, s.log, s.polls[i], m);
    }
  }

  lemma ReadKeeps(c: Codec, s: State, e: Event)
    requires Faithful(c) && Valid(c, s) && e.Read?
    ensures Valid(c, Next(c, s, e))
  {
    var start := if e.replay || !e.readable then 0 else s.at;
    LenientRead(c, s.log, start);
    assert s.log[start..] == s.log[start..|s.log|];
    assert s.log[..0] == [];
    assert EndOf(c, s.log, 0) == 0;
  }

  lemma NextKeeps(c: Codec, s: State, e: Event)
    requires Faithful(c) && Valid(c, s)
    ensures Valid(c, Next(c, s, e))
  {
    match e
    case Received(m) => ReceivedKeeps(c, s, m);
    case Read(_, _, _) => ReadKeeps(c, s, e);
    case Saved(i) => if Saves(s, e) { assert PollOk(c, s.log, s.polls[i]); }
  }

  lemma {:induction false} PollsAreValid(c: Codec, events: seq<Event>)
    requires Faithful(c)
    ensures Valid(c, Polls(c, events))
  {
    if events != [] {
      PollsAreValid(c, events[..|events| - 1]);
      NextKeeps(c, Polls(c, events[..|events| - 1]), events[|events| - 1]);
    }
  }

  // ----- exactly once -----

  /** Saved polls have read every message before the cursor exactly once, in order. */
  ghost predicate Exact(s: State) { s.at <= |s.log| && AllMessages(s.log) && s.passed == MessagesOf(s.log[..s.at]) }

  /** A poll is saved only while the cursor is still the one it began from. */
  predicate Orderly(s: State, e: Event) { Saves(s, e) ==> s.polls[e.poll].from == s.cursor }

  lemma {:induction false} EndsIncrease(c: Codec, log: Entries, i: nat, j: nat)
    requires i < j <= |log|
    ensures EndOf(c, log, i) < EndOf(c, log, j)
    decreases j
  {
    RenderSplit(c, log, j - 1);
    if i < j - 1 { EndsIncrease(c, log, i, j - 1); }
  }

  lemma SameEnds(c: Codec, log: Entries, i: nat, j: nat)
    requires i <= |log| && j <= |log|
    ensures EndOf(c, log, i) == EndOf(c, log, j) <==> i == j
  {
    if i < j { EndsIncrease(c, log, i, j); }
    if j < i { EndsIncrease(c, log, j, i); }
  }

  lemma {:induction false} MessagesConcat(a: Entries, b: Entries)
    requires AllMessages(a) && AllMessages(b)
    ensures AllMessages(a + b) && MessagesOf(a + b) == MessagesOf(a) + MessagesOf(b)
  {
    if b == [] {
      assert a + b == a;
    } else {
      assert (a + b)[..|a + b| - 1] == a + b[..|b| - 1];
      MessagesConcat(a, b[..|b| - 1]);
    }
  }

  lemma {:induction false} AsManyMessages(log: Entries)
    requires AllMessages(log)
    ensures |MessagesOf(log)| == |log|
  {
    if log != [] { AsManyMessages(log[..|log| - 1]); }
  }

  /** What a poll adds continues what was read exactly if it starts where that ends. */
  lemma Continues(log: Entries, at: nat, start: nat, end: nat)
    requires AllMessages(log) && at <= |log| && start <= end <= |log|
    ensures MessagesOf(log[..at]) + MessagesOf(log[start..end]) == MessagesOf(log[..end]) <==> at == start
  {
    AsManyMessages(log[..at]);
    AsManyMessages(log[start..end]);
    AsManyMessages(log[..end]);
    MessagesConcat(log[..start], log[start..end]);
    assert log[..start] + log[start..end] == log[..end];
  }

  /** One event keeps exactly-once if and only if it is no save out of order. */
  lemma NextIsExact(c: Codec, s: State, e: Event)
    requires Faithful(c) && Valid(c, s) && Exact(s)
    ensures Exact(Next(c, s, e)) <==> Orderly(s, e)
  {
    match e
    case Received(m) => assert (s.log + [Line(m)])[..s.at] == s.log[..s.at];
    case Read(_, _, _) =>
    case Saved(i) =>
      if Saves(s, e) {
        var p := s.polls[i];
        assert PollOk(c, s.log, p);
        SameEnds(c, s.log, p.start, s.at);
        Continues(s.log, s.at, p.start, p.end);
      }
  }

  ghost predicate AllOrderly(c: Codec, events: seq<Event>) {
    events != [] ==>
      var init := events[..|events| - 1];
      AllOrderly(c, init) && Orderly(Polls(c, init), events[|events| - 1])
  }

  ghost predicate AlwaysExact(c: Codec, events: seq<Event>) {
    Exact(Polls(c, events)) && (events != [] ==> AlwaysExact(c, events[..|events| - 1]))
  }

  /** However receiving and polling interleave, every message before the cursor has been read exactly
      once and in order, at every moment, if and only if each poll is saved while the cursor is still
      the one it began from: not after an overlapping poll, a replay, or a cursor it could not read. */
  lemma {:induction false} EachMessageOnce(c: Codec, events: seq<Event>)
    requires Faithful(c)
    ensures AlwaysExact(c, events) <==> AllOrderly(c, events)
  {
    if events == [] {
      assert Exact(BIRTH);
    } else {
      var init, last := events[..|events| - 1], events[|events| - 1];
      EachMessageOnce(c, init);
      PollsAreValid(c, init);
      if AlwaysExact(c, init) { NextIsExact(c, Polls(c, init), last); }
    }
  }

  /** Polls one at a time: only the latest is ever saved, none replays, and the cursor is readable. */
  predicate Serial(s: State, e: Event) {
    match e
    case Received(_) => true
    case Read(_, replay, readable) => !replay && readable
    case Saved(i) => Saves(s, e) ==> i == |s.polls| - 1
  }

  ghost predicate AllSerial(c: Codec, events: seq<Event>) {
    events != [] ==>
      var init := events[..|events| - 1];
      AllSerial(c, init) && Serial(Polls(c, init), events[|events| - 1])
  }

  ghost predicate LatestIsCurrent(s: State) {
    s.polls != [] && !s.polls[|s.polls| - 1].done ==> s.polls[|s.polls| - 1].from == s.cursor
  }

  lemma SerialStep(c: Codec, s: State, e: Event)
    requires LatestIsCurrent(s) && Serial(s, e)
    ensures Orderly(s, e) && LatestIsCurrent(Next(c, s, e))
  {
  }

  /** Polls that do not overlap are orderly, so they return each message once. */
  lemma {:induction false} SerialIsOrderly(c: Codec, events: seq<Event>)
    requires AllSerial(c, events)
    ensures AllOrderly(c, events) && LatestIsCurrent(Polls(c, events))
  {
    if events != [] {
      var init := events[..|events| - 1];
      SerialIsOrderly(c, init);
      SerialStep(c, Polls(c, init), events[|events| - 1]);
    }
  }

  /** What one save hands out is what its poll has read, but for the poller's own messages. */
  lemma SaveHandsOut(c: Codec, s: State, i: nat) returns (part: seq<Msg>, at: seq<nat>)
    requires Saves(s, Saved(i))
    ensures Next(c, s, Saved(i)).returned == s.returned + part
    ensures Next(c, s, Saved(i)).passed == s.passed + s.polls[i].msgs
    ensures Selects(part, s.polls[i].msgs, NotBy(s.polls[i].nick), at)
  {
    part := Others(s.polls[i].nick, s.polls[i].msgs);
    at := OthersAreNotBy(s.polls[i].nick, s.polls[i].msgs);
  }

  /** Under one name, what is handed out are the messages that were read and are not the reader's own:
      each as often as it was read, and in that order. */
  lemma {:induction false} ReturnedAreOthers(c: Codec, events: seq<Event>, nick: string) returns (at: seq<nat>)
    requires forall k :: 0 <= k < |events| && events[k].Read? ==> events[k].nick == nick
    ensures Selects(Polls(c, events).returned, Polls(c, events).passed, NotBy(nick), at)
    ensures forall i :: 0 <= i < |Polls(c, events).polls| ==> Polls(c, events).polls[i].nick == nick
  {
    if events == [] { return []; }
    var init, last := events[..|events| - 1], events[|events| - 1];
    at := ReturnedAreOthers(c, init, nick);
    var s := Polls(c, init);
    if Saves(s, last) {
      var part, here := SaveHandsOut(c, s, last.poll);
      at := SelectsConcat(s.returned, s.passed, at, part, s.polls[last.poll].msgs, here, NotBy(nick));
    }
  }
}
