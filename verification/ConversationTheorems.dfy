/** What one delivery attempt can do to the thread, whatever frames the server sends. */
module ConversationTheorems {
  import opened Prelude
  import opened AppClient
  import opened Conversation

  /** The writes that carry text to the thread. */
  function TextWrites(sent: seq<Sending>): seq<Sending> {
    if sent == [] then [] else
    var before, last := TextWrites(sent[..|sent| - 1]), sent[|sent| - 1];
    if last.call.TurnStart? || last.call.TurnSteer? then before + [last] else before
  }

  lemma TextWritesSnoc(sent: seq<Sending>, s: Sending)
    ensures TextWrites(sent + [s])
         == (if s.call.TurnStart? || s.call.TurnSteer? then TextWrites(sent) + [s] else TextWrites(sent))
  {
    assert (sent + [s])[..|sent|] == sent;
  }

  /** A later connection state: fewer frames to come, a counter that only grows. */
  ghost predicate Later(c: Conn, d: Conn) {
    c.next <= d.next && |d.inbox| <= |c.inbox| && d.inbox == c.inbox[|c.inbox| - |d.inbox|..]
  }

  lemma {:induction false} AwaitIs(inbox: seq<Frame>, id: nat)
    ensures var r := Await(inbox, id);
      && |r| <= |inbox| && r == inbox[|inbox| - |r|..]
      && (r != [] && !r[0].Unreadable? ==> r[0].id == Some(id))
  {
    if inbox != [] && !inbox[0].Unreadable? && inbox[0].id != Some(id) { AwaitIs(inbox[1..], id); }
  }

  /** A result really is a frame of the server's that carries this request's id. */
  ghost predicate Answers(inbox: seq<Frame>, id: nat, p: Payload) {
    Frame(Some(id), Result(p)) in inbox
  }

  lemma OpenCallIs(c: Conn, call: Method, turn: string)
    ensures var (d, r) := Call(c, call, turn, Open);
      && Later(c, d) && (r.Got? ==> Answers(c.inbox, d.next, r.payload))
  {
    AwaitIs(c.inbox, c.next + 1);
    var frames := Await(c.inbox, c.next + 1);
    if frames != [] { assert frames[0] in c.inbox; }
  }

  lemma CallIs(c: Conn, call: Method, turn: string, gate: Gate)
    ensures var (d, r) := Call(c, call, turn, gate);
      && Later(c, d) && d.next == c.next + 1
      && d.sent == (if gate.Closed? then c.sent else c.sent + [Sending(d.next, call, turn)])
      && (r.Got? ==> gate.Open? && Answers(c.inbox, d.next, r.payload))
  {
    if gate.Open? { OpenCallIs(c, call, turn); }
  }

  /** From `c` to `d` the connection wrote exactly `writes` to the thread. */
  ghost predicate Wrote(c: Conn, d: Conn, writes: seq<Sending>) {
    Later(c, d) && TextWrites(d.sent) == TextWrites(c.sent) + writes
  }

  lemma WroteThen(c: Conn, d: Conn, e: Conn, first: seq<Sending>, second: seq<Sending>)
    requires Wrote(c, d, first) && Wrote(d, e, second)
    ensures Wrote(c, e, first + second)
  {
    assert TextWrites(c.sent) + first + second == TextWrites(c.sent) + (first + second);
  }

  lemma QuietCall(c: Conn, call: Method, turn: string)
    requires !call.TurnStart? && !call.TurnSteer?
    ensures Wrote(c, Call(c, call, turn, Open).0, [])
  {
    CallIs(c, call, turn, Open);
    TextWritesSnoc(c.sent, Sending(c.next + 1, call, turn));
  }

  lemma LookIs(c: Conn, thread: string)
    ensures Wrote(c, Look(c, thread).0, []) && Honest(Look(c, thread).1)
  {
    QuietCall(c, ThreadRead, "");
    var c1 := Call(c, ThreadRead, "", Open).0;
    QuietCall(c1, TurnsList, "");
    WroteThen(c, c1, Call(c1, TurnsList, "", Open).0, [], []);
  }

  /** An acknowledged turn id comes from a frame of the server's carrying the id of this very write. */
  ghost predicate Backed(c: Conn, w: Sending, turn: string) {
    turn != "" && exists p :: Answers(c.inbox, w.id, p) && turn == (if w.call.TurnSteer? then p.steered else p.started)
  }

  lemma TextCall(c: Conn, call: Method, turn: string, gate: Gate)
    requires call.TurnStart? || call.TurnSteer?
    ensures var e := Call(c, call, turn, gate).0;
      e.next == c.next + 1 && Wrote(c, e, if gate.Closed? then [] else [Sending(e.next, call, turn)])
  {
    CallIs(c, call, turn, gate);
    TextWritesSnoc(c.sent, Sending(c.next + 1, call, turn));
    assert TextWrites(c.sent) + [] == TextWrites(c.sent);
  }

  /** The server has answered this request with the error of a steer that met the end of its turn. */
  ghost predicate RefusedAsIdle(c: Conn, id: nat) {
    exists code, message :: Frame(Some(id), Error(code, message)) in c.inbox && IsIdleSteerRace(code, message)
  }

  lemma DeliveredMeans(d: Dispatch, r: Called)
    ensures var v := Judge(d, ReplyOf(d, r));
      && (v.Recheck? ==> d.Steer?)
      && (v.Delivered? ==> r.Got? && v.turn != "")
      && (v.Delivered? ==> v.turn == (if d.Steer? then r.payload.steered else r.payload.started))
  {
    JudgeIs(d, ReplyOf(d, r));
  }

  lemma RaceMeans(d: Dispatch, r: Called)
    requires Judge(d, ReplyOf(d, r)).Recheck?
    ensures r.Failed? && r.failure.RpcFailed? && IsIdleSteerRace(r.failure.code, r.failure.message)
  {
  }

  lemma ErrorIsAFrame(c: Conn, call: Method, turn: string, r: Called)
    requires r == Call(c, call, turn, Open).1 && r.Failed? && r.failure.RpcFailed?
    ensures Frame(Some(c.next + 1), Error(r.failure.code, r.failure.message)) in c.inbox
  {
    AwaitIs(c.inbox, c.next + 1);
    var frames := Await(c.inbox, c.next + 1);
    assert frames[0] in c.inbox;
  }

  lemma RaceIsRefused(c: Conn, id: nat, f: Failure)
    requires f.RpcFailed? && IsIdleSteerRace(f.code, f.message) && Frame(Some(id), Error(f.code, f.message)) in c.inbox
    ensures RefusedAsIdle(c, id)
  {
  }

  lemma OnlyOpenRechecks(c: Conn, d: Dispatch, gate: Gate)
    requires Try(c, d, gate).1.Recheck?
    ensures gate.Open? && Judge(d, ReplyOf(d, Call(c, MethodOf(d), TurnOf(d), Open).1)).Recheck?
  {
  }

  lemma RecheckMeans(c: Conn, d: Dispatch, gate: Gate)
    requires Try(c, d, gate).1.Recheck?
    ensures gate.Open? && RefusedAsIdle(c, c.next + 1)
  {
    var r := Call(c, MethodOf(d), TurnOf(d), Open).1;
    OnlyOpenRechecks(c, d, gate);
    RaceMeans(d, r);
    ErrorIsAFrame(c, MethodOf(d), TurnOf(d), r);
    RaceIsRefused(c, c.next + 1, r.failure);
  }

  /** What one dispatch writes, and what its verdict rests on. */
  lemma TryIs(c: Conn, d: Dispatch, gate: Gate) returns (writes: seq<Sending>)
    ensures var (e, v) := Try(c, d, gate);
      && Wrote(c, e, writes)
      && writes == (if gate.Closed? then [] else [Sending(c.next + 1, MethodOf(d), TurnOf(d))])
      && (v.Delivered? ==> writes != [] && Backed(c, writes[0], v.turn))
      && (v.Recheck? ==> d.Steer? && writes != [] && RefusedAsIdle(c, writes[0].id))
  {
    TextCall(c, MethodOf(d), TurnOf(d), gate);
    CallIs(c, MethodOf(d), TurnOf(d), gate);
    var (e, r) := Call(c, MethodOf(d), TurnOf(d), gate);
    DeliveredMeans(d, r);
    if Try(c, d, gate).1.Recheck? { RecheckMeans(c, d, gate); }
    writes := if gate.Closed? then [] else [Sending(e.next, MethodOf(d), TurnOf(d))];
  }

  lemma RedecideIs(seen: Inspection)
    ensures Redecide(seen).Send? ==> Redecide(seen).dispatch == StartStale
  {
  }

  lemma StaleStartIs(c: Conn, c1: Conn, gate: Gate) returns (writes: seq<Sending>)
    requires Wrote(c, c1, [])
    ensures var (c2, v) := Try(c1, StartStale, gate);
      && Wrote(c, c2, writes)
      && (if gate.Closed? then writes == [] else |writes| == 1 && writes[0] == Sending(c1.next + 1, TurnStart, ""))
      && (v.Delivered? ==> writes != [] && Backed(c, writes[0], v.turn))
  {
    writes := TryIs(c1, StartStale, gate);
    var (c2, v) := Try(c1, StartStale, gate);
    WroteThen(c, c1, c2, [], writes);
    assert [] + writes == writes;
    if v.Delivered? { BackedLater(c, c1, writes[0], v.turn); }
  }

  /** At most one write, a start, on whose reply an acknowledgement rests. */
  ghost predicate Restarts(c: Conn, e: Conn, out: Outcome, writes: seq<Sending>) {
    && Wrote(c, e, writes) && |writes| <= 1
    && (writes != [] ==> writes[0].call == TurnStart && writes[0].turn == "" && c.next < writes[0].id)
    && (out.Acknowledged? ==> writes != [] && out.call.TurnStart? && Backed(c, writes[0], out.turn))
  }

  /** The second look leads to at most one write, a start; and to one exactly if the thread is idle now
      and the gate lets it through. */
  lemma AgainIs(c: Conn, thread: string, gate: Gate) returns (writes: seq<Sending>)
    ensures Restarts(c, Again(c, thread, gate).0, Again(c, thread, gate).1, writes)
    ensures writes != [] <==> Redecide(Look(c, thread).1).Send? && !gate.Closed?
  {
    LookIs(c, thread);
    writes := [];
    RedecideIs(Look(c, thread).1);
    if Redecide(Look(c, thread).1).Send? { writes := StaleStartIs(c, Look(c, thread).0, gate); }
  }

  lemma BackedLater(c: Conn, d: Conn, w: Sending, turn: string)
    requires Later(c, d) && Backed(d, w, turn)
    ensures Backed(c, w, turn)
  {
    var p :| Answers(d.inbox, w.id, p) && turn == (if w.call.TurnSteer? then p.steered else p.started);
    assert Answers(c.inbox, w.id, p);
  }

  /** The text goes out at most twice, and then as a steer that the server refused as "no active turn"
      followed by one start; and an acknowledgement rests on a reply to the last write. */
  ghost predicate Delivers(c: Conn, e: Conn, out: Outcome, writes: seq<Sending>) {
    && Wrote(c, e, writes) && |writes| <= 2
    && (|writes| == 2 ==> writes[0].call.TurnSteer? && writes[1].call.TurnStart? && writes[0].id < writes[1].id)
    && (|writes| == 2 ==> RefusedAsIdle(c, writes[0].id))
    && (out.Acknowledged? ==> writes != [] && var last := writes[|writes| - 1];
          last.call == out.call && Backed(c, last, out.turn))
  }

  lemma DeliversAfter(c: Conn, d: Conn, e: Conn, out: Outcome, writes: seq<Sending>)
    requires Wrote(c, d, []) && Delivers(d, e, out, writes)
    ensures Delivers(c, e, out, writes)
  {
    WroteThen(c, d, e, [], writes);
    assert [] + writes == writes;
    if out.Acknowledged? { BackedLater(c, d, writes[|writes| - 1], out.turn); }
    if |writes| == 2 { RefusedEarlier(c, d, writes[0].id); }
  }

  lemma RefusedEarlier(c: Conn, d: Conn, id: nat)
    requires Later(c, d) && RefusedAsIdle(d, id)
    ensures RefusedAsIdle(c, id)
  {
    var code, message :| Frame(Some(id), Error(code, message)) in d.inbox && IsIdleSteerRace(code, message);
    assert Frame(Some(id), Error(code, message)) in c.inbox;
  }

  /** A refused steer, and what the second look led to. */
  lemma RetryDelivers(c: Conn, c1: Conn, e: Conn, out: Outcome, writes: seq<Sending>, more: seq<Sending>)
    requires Wrote(c, c1, writes) && Wrote(c1, e, more) && |writes| == 1 && |more| <= 1
    requires writes[0].call.TurnSteer? && writes[0].id <= c1.next && RefusedAsIdle(c, writes[0].id)
    requires more != [] ==> more[0].call.TurnStart? && c1.next < more[0].id
    requires out.Acknowledged? ==> more != [] && out.call.TurnStart? && Backed(c1, more[0], out.turn)
    ensures Delivers(c, e, out, writes + more) && (writes + more)[0] == writes[0]
  {
    WroteThen(c, c1, e, writes, more);
    if out.Acknowledged? { BackedLater(c, c1, more[0], out.turn); }
  }

  lemma AttemptIs(c: Conn, thread: string, d: Dispatch, first: Gate, second: Gate) returns (writes: seq<Sending>)
    ensures Delivers(c, Attempt(c, thread, d, first, second).0, Attempt(c, thread, d, first, second).1, writes)
    ensures writes != [] ==> writes[0].call == MethodOf(d)
  {
    var (c1, v) := Try(c, d, first);
    writes := TryIs(c, d, first);
    if v.Recheck? {
      CallIs(c, MethodOf(d), TurnOf(d), first);
      var (e, out) := Again(c1, thread, second);
      var more := AgainIs(c1, thread, second);
      RetryDelivers(c, c1, e, out, writes, more);
      writes := writes + more;
    }
  }

  lemma FirstLookWrites(c: Conn, thread: string)
    ensures var c0 := Call(c, Initialize, "", Open).0; Wrote(c, c0, []) && Wrote(c, Look(c0, thread).0, [])
  {
    QuietCall(c, Initialize, "");
    var c0 := Call(c, Initialize, "", Open).0;
    LookIs(c0, thread);
    WroteThen(c, c0, Look(c0, thread).0, [], []);
  }

  /** What the first look amounts to: a connection that fails is a look that failed. */
  function FirstLook(c: Conn, thread: string): Inspection {
    var (c0, hello) := Call(c, Initialize, "", Open);
    if hello.Failed? then InspectFailed(hello.failure) else Look(c0, thread).1
  }

  function AfterFirstLook(c: Conn, thread: string): Conn {
    Look(Call(c, Initialize, "", Open).0, thread).0
  }

  lemma FirstLookIsHonest(c: Conn, thread: string)
    ensures Honest(FirstLook(c, thread))
  {
    LookIs(Call(c, Initialize, "", Open).0, thread);
  }

  lemma DeliverTries(c: Conn, thread: string, noStart: bool, first: Gate, second: Gate)
    requires Decide(noStart, FirstLook(c, thread)).Send?
    ensures Deliver(c, thread, noStart, first, second)
         == Attempt(AfterFirstLook(c, thread), thread, Decide(noStart, FirstLook(c, thread)).dispatch, first, second)
  {
  }

  lemma DeliverGivesUp(c: Conn, thread: string, noStart: bool, first: Gate, second: Gate)
    requires Decide(noStart, FirstLook(c, thread)).GiveUp?
    ensures Deliver(c, thread, noStart, first, second).1 == Retained(Decide(noStart, FirstLook(c, thread)).failure)
    ensures Deliver(c, thread, noStart, first, second).0 in {Call(c, Initialize, "", Open).0, AfterFirstLook(c, thread)}
  {
  }

  lemma HeldBackSteers(seen: Inspection)
    ensures Decide(true, seen).Send? ==> Decide(true, seen).dispatch.Steer?
  {
  }

  /** Whatever the server sends, one attempt does no more than that; and while starts are held back,
      a start is never its first write. */
  lemma DeliverIs(c: Conn, thread: string, noStart: bool, first: Gate, second: Gate) returns (writes: seq<Sending>)
    ensures var (e, out) := Deliver(c, thread, noStart, first, second); Delivers(c, e, out, writes)
    ensures noStart && writes != [] ==> writes[0].call.TurnSteer?
  {
    FirstLookWrites(c, thread);
    var choice, c1 := Decide(noStart, FirstLook(c, thread)), AfterFirstLook(c, thread);
    if choice.Send? {
      DeliverTries(c, thread, noStart, first, second);
      writes := AttemptIs(c1, thread, choice.dispatch, first, second);
      var (e, out) := Attempt(c1, thread, choice.dispatch, first, second);
      DeliversAfter(c, c1, e, out, writes);
      HeldBackSteers(FirstLook(c, thread));
    } else {
      DeliverGivesUp(c, thread, noStart, first, second);
      writes := [];
    }
  }

  // ----- the availability probe -----

  /** The probe carries no text, and finds the thread available exactly if the look it takes shows that
      very thread idle or active; the failure it reports otherwise is the one the look came to. */
  lemma ProbeIs(c: Conn, thread: string)
    ensures Wrote(c, Probe(c, thread).0, [])
    ensures var seen, failure := FirstLook(c, thread), Probe(c, thread).1;
      && (failure == None <==> seen.Thread? && seen.kind in {"idle", "active"})
      && (seen.Thread? && failure.Some? ==> failure == Some(Unavailable(seen.kind)))
      && (seen.InspectFailed? ==> failure == Some(seen.failure))
      && (seen.WrongThread? ==> failure == Some(Broken))
  {
    FirstLookWrites(c, thread);
    FirstLookIsHonest(c, thread);
  }

  // ----- the start that the flag does not hold back -----

  /** While starts are held back: the thread is active, its turn is steered and the server refuses that
      as "no active turn", the thread is idle at the second look, and the second gate is not closed. */
  ghost predicate SlipsThrough(c: Conn, thread: string, first: Gate, second: Gate) {
    var seen, c1 := FirstLook(c, thread), AfterFirstLook(c, thread);
    && seen.Thread? && seen.kind == "active" && ActiveTurn(seen.turns) != ""
    && Try(c1, Steer(ActiveTurn(seen.turns)), first).1.Recheck?
    && var again := Look(Try(c1, Steer(ActiveTurn(seen.turns)), first).0, thread).1;
       again.Thread? && again.kind == "idle" && !second.Closed?
  }

  ghost predicate Starts(writes: seq<Sending>) { exists i :: 0 <= i < |writes| && writes[i].call.TurnStart? }

  lemma HeldBackDecision(seen: Inspection)
    ensures Decide(true, seen).Send? <==> seen.Thread? && seen.kind == "active" && ActiveTurn(seen.turns) != ""
    ensures Decide(true, seen).Send? ==> Decide(true, seen).dispatch == Steer(ActiveTurn(seen.turns))
    ensures Redecide(seen).Send? <==> seen.Thread? && seen.kind == "idle"
  {
  }

  lemma WritesAreUnique(c: Conn, e: Conn, a: seq<Sending>, b: seq<Sending>)
    requires Wrote(c, e, a) && Wrote(c, e, b)
    ensures a == b
  {
    assert (TextWrites(c.sent) + a)[|TextWrites(c.sent)|..] == a;
    assert (TextWrites(c.sent) + b)[|TextWrites(c.sent)|..] == b;
  }

  lemma SameWrites(c: Conn, c1: Conn, e: Conn, writes: seq<Sending>, later: seq<Sending>)
    requires Wrote(c, c1, []) && Wrote(c1, e, later) && Wrote(c, e, writes)
    ensures writes == later
  {
    WroteThen(c, c1, e, [], later);
    assert [] + later == later;
    WritesAreUnique(c, e, writes, later);
  }

  lemma StartsAfterSteer(one: seq<Sending>, more: seq<Sending>)
    requires |one| == 1 && one[0].call.TurnSteer? && |more| <= 1 && (more != [] ==> more[0].call.TurnStart?)
    ensures Starts(one + more) <==> more != []
  {
    if more != [] { assert (one + more)[1] == more[0]; }
  }

  lemma RefusedSteerStarts(c: Conn, thread: string, d: Dispatch, first: Gate, second: Gate, writes: seq<Sending>)
    requires d.Steer? && Try(c, d, first).1.Recheck? && Wrote(c, Attempt(c, thread, d, first, second).0, writes)
    ensures Starts(writes) <==> Redecide(Look(Try(c, d, first).0, thread).1).Send? && !second.Closed?
  {
    var c1 := Try(c, d, first).0;
    var one := TryIs(c, d, first);
    var more := AgainIs(c1, thread, second);
    var e := Again(c1, thread, second).0;
    WroteThen(c, c1, e, one, more);
    WritesAreUnique(c, e, writes, one + more);
    StartsAfterSteer(one, more);
  }

  lemma OtherSteerStartsNothing(c: Conn, thread: string, d: Dispatch, first: Gate, second: Gate, writes: seq<Sending>)
    requires d.Steer? && !Try(c, d, first).1.Recheck? && Wrote(c, Attempt(c, thread, d, first, second).0, writes)
    ensures !Starts(writes)
  {
    var one := TryIs(c, d, first);
    WritesAreUnique(c, Try(c, d, first).0, writes, one);
  }

  /** A steer starts a turn exactly by way of its refusal. */
  lemma SteeredStarts(c: Conn, thread: string, d: Dispatch, first: Gate, second: Gate, writes: seq<Sending>)
    requires d.Steer? && Wrote(c, Attempt(c, thread, d, first, second).0, writes)
    ensures Starts(writes) <==>
      && Try(c, d, first).1.Recheck?
      && Redecide(Look(Try(c, d, first).0, thread).1).Send? && !second.Closed?
  {
    if Try(c, d, first).1.Recheck? { RefusedSteerStarts(c, thread, d, first, second, writes); }
    else { OtherSteerStartsNothing(c, thread, d, first, second, writes); }
  }

  lemma HeldBackSends(c: Conn, thread: string, d: Dispatch, first: Gate, second: Gate, writes: seq<Sending>)
    requires Decide(true, FirstLook(c, thread)) == Send(d) && d.Steer?
    requires Wrote(c, Deliver(c, thread, true, first, second).0, writes)
    ensures Wrote(AfterFirstLook(c, thread), Attempt(AfterFirstLook(c, thread), thread, d, first, second).0, writes)
  {
    var c1 := AfterFirstLook(c, thread);
    FirstLookWrites(c, thread);
    DeliverTries(c, thread, true, first, second);
    var tried := AttemptIs(c1, thread, d, first, second);
    SameWrites(c, c1, Attempt(c1, thread, d, first, second).0, writes, tried);
  }

  lemma HeldBackGivesUp(c: Conn, thread: string, first: Gate, second: Gate, writes: seq<Sending>)
    requires Decide(true, FirstLook(c, thread)).GiveUp?
    requires Wrote(c, Deliver(c, thread, true, first, second).0, writes)
    ensures writes == []
  {
    FirstLookWrites(c, thread);
    DeliverGivesUp(c, thread, true, first, second);
    WritesAreUnique(c, Deliver(c, thread, true, first, second).0, writes, []);
  }

  /** While starts are held back an attempt writes a start if and only if it slips through so. */
  lemma HeldBackStartsExactly(c: Conn, thread: string, first: Gate, second: Gate, writes: seq<Sending>)
    requires Wrote(c, Deliver(c, thread, true, first, second).0, writes)
    ensures Starts(writes) <==> SlipsThrough(c, thread, first, second)
  {
    var seen, c1 := FirstLook(c, thread), AfterFirstLook(c, thread);
    HeldBackDecision(seen);
    if Decide(true, seen).Send? {
      var d := Steer(ActiveTurn(seen.turns));
      HeldBackSends(c, thread, d, first, second, writes);
      SteeredStarts(c1, thread, d, first, second, writes);
      HeldBackDecision(Look(Try(c1, d, first).0, thread).1);
    } else {
      HeldBackGivesUp(c, thread, first, second, writes);
    }
  }

  lemma CallAnswered(c: Conn, call: Method, turn: string, p: Payload)
    requires c.inbox != [] && c.inbox[0] == Frame(Some(c.next + 1), Result(p))
    ensures Call(c, call, turn, Open).0 == Conn(c.next + 1, c.inbox[1..], c.sent + [Sending(c.next + 1, call, turn)])
    ensures Call(c, call, turn, Open).1 == Got(p)
  {
  }

  lemma LookAnswered(c: Conn, thread: string, p: Payload, turns: Payload)
    requires |c.inbox| >= 2 && p.thread == thread
    requires c.inbox[0] == Frame(Some(c.next + 1), Result(p)) && c.inbox[1] == Frame(Some(c.next + 2), Result(turns))
    ensures Look(c, thread).1 == Inspection.Thread(p.status, turns.turns)
    ensures Look(c, thread).0.next == c.next + 2 && Look(c, thread).0.inbox == c.inbox[2..]
  {
    CallAnswered(c, ThreadRead, "", p);
    CallAnswered(Call(c, ThreadRead, "", Open).0, TurnsList, "", turns);
  }

  lemma CallRefused(c: Conn, call: Method, turn: string, code: int, message: string)
    requires c.inbox != [] && c.inbox[0] == Frame(Some(c.next + 1), Error(code, message))
    ensures Call(c, call, turn, Open).0 == Conn(c.next + 1, c.inbox[1..], c.sent + [Sending(c.next + 1, call, turn)])
    ensures Call(c, call, turn, Open).1 == Failed(RpcFailed(call, code, message))
  {
  }

  lemma RaceIsRechecked(turn: string, code: int, message: string)
    requires IsIdleSteerRace(code, message)
    ensures Judge(Steer(turn), ReplyOf(Steer(turn), Failed(RpcFailed(TurnSteer, code, message)))) == Recheck
  {
  }

  lemma SteerRefused(c: Conn, turn: string, code: int, message: string)
    requires IsIdleSteerRace(code, message)
    requires c.inbox != [] && c.inbox[0] == Frame(Some(c.next + 1), Error(code, message))
    ensures Try(c, Steer(turn), Open).1.Recheck?
    ensures Try(c, Steer(turn), Open).0.next == c.next + 1 && Try(c, Steer(turn), Open).0.inbox == c.inbox[1..]
  {
    CallRefused(c, TurnSteer, turn, code, message);
    RaceIsRechecked(turn, code, message);
  }

  /** Such a conversation: the turn that was active at the first look is over when its steer arrives. */
  function TurnEnds(thread: string, turn: string, message: string): seq<Frame> {
    var active := Payload(thread, "active", [Turn(turn, true)], "", "");
    var idle := Payload(thread, "idle", [], "next", "");
    [Frame(Some(1), Result(active)), Frame(Some(2), Result(active)), Frame(Some(3), Result(active)),
     Frame(Some(4), Error(IDLE_RACE_CODE, message)), Frame(Some(5), Result(idle)), Frame(Some(6), Result(idle)),
     Frame(Some(7), Result(idle))]
  }

  lemma FirstLookAnswered(c: Conn, thread: string, p: Payload)
    requires |c.inbox| >= 3 && p.thread == thread
    requires forall i :: 0 <= i < 3 ==> c.inbox[i] == Frame(Some(c.next + 1 + i), Result(p))
    ensures FirstLook(c, thread) == Inspection.Thread(p.status, p.turns)
    ensures AfterFirstLook(c, thread).next == c.next + 3 && AfterFirstLook(c, thread).inbox == c.inbox[3..]
  {
    CallAnswered(c, Initialize, "", p);
    LookAnswered(Call(c, Initialize, "", Open).0, thread, p, p);
  }

  lemma RefusalAnswered(c: Conn, thread: string, turn: string, message: string, idle: Payload)
    requires |c.inbox| >= 3 && idle.thread == thread && idle.status == "idle"
    requires IsIdleSteerRace(IDLE_RACE_CODE, message)
    requires c.inbox[0] == Frame(Some(c.next + 1), Error(IDLE_RACE_CODE, message))
    requires forall i :: 1 <= i < 3 ==> c.inbox[i] == Frame(Some(c.next + 1 + i), Result(idle))
    ensures Try(c, Steer(turn), Open).1.Recheck?
    ensures Look(Try(c, Steer(turn), Open).0, thread).1 == Inspection.Thread("idle", idle.turns)
  {
    SteerRefused(c, turn, IDLE_RACE_CODE, message);
    LookAnswered(Try(c, Steer(turn), Open).0, thread, idle, idle);
  }

  lemma TurnEndsSlips(c: Conn, thread: string, turn: string, message: string, active: Payload, idle: Payload)
    requires turn != "" && IsIdleSteerRace(IDLE_RACE_CODE, message) && c.next == 0 && |c.inbox| == 7
    requires active == Payload(thread, "active", [Turn(turn, true)], "", "")
    requires idle == Payload(thread, "idle", [], "next", "")
    requires c.inbox[3] == Frame(Some(4), Error(IDLE_RACE_CODE, message))
    requires forall i :: 0 <= i < 3 ==> c.inbox[i] == Frame(Some(i + 1), Result(active))
    requires forall i :: 4 <= i < 7 ==> c.inbox[i] == Frame(Some(i + 1), Result(idle))
    ensures SlipsThrough(c, thread, Open, Open)
  {
    FirstLookAnswered(c, thread, active);
    RefusalAnswered(AfterFirstLook(c, thread), thread, turn, message, idle);
  }

  /** Starts are held back, and a turn is started all the same. */
  lemma UnguardedStart(c: Conn, thread: string, turn: string, message: string) returns (writes: seq<Sending>)
    requires turn != "" && IsIdleSteerRace(IDLE_RACE_CODE, message)
    requires c == Conn(0, TurnEnds(thread, turn, message), [])
    ensures Wrote(c, Deliver(c, thread, true, Open, Open).0, writes) && Starts(writes)
  {
    var active := Payload(thread, "active", [Turn(turn, true)], "", "");
    var idle := Payload(thread, "idle", [], "next", "");
    TurnEndsSlips(c, thread, turn, message, active, idle);
    writes := DeliverIs(c, thread, true, Open, Open);
    HeldBackStartsExactly(c, thread, Open, Open, writes);
  }
}
