/** What a delivery attempt reports, told from the frames the server sends: which frame answers a
    request, what each answer comes to, and that no failure is reported as another. */
module Attempts {
  import opened Prelude
  import opened AppClient
  import opened Conversation
  import opened ConversationTheorems

  // ----- which frame answers -----

  /** Frame `i` ends the wait for `id`: it is the first that is unreadable or carries that id. Frames for
      other ids, and notifications, are passed over. */
  ghost predicate EndsWait(inbox: seq<Frame>, id: nat, i: nat) {
    && i < |inbox| && (inbox[i].Unreadable? || inbox[i].id == Some(id))
    && forall k :: 0 <= k < i ==> !inbox[k].Unreadable? && inbox[k].id != Some(id)
  }

  /** The request that `c` sends next is answered with this body, and these frames are left. */
  ghost predicate Answered(c: Conn, body: Body, rest: seq<Frame>) {
    exists i: nat :: EndsWait(c.inbox, c.next + 1, i) && !c.inbox[i].Unreadable?
      && c.inbox[i].body == body && rest == c.inbox[i + 1..]
  }

  /** It is answered by nothing that can be read. */
  ghost predicate Unanswered(c: Conn) {
    || (forall k :: 0 <= k < |c.inbox| ==> !c.inbox[k].Unreadable? && c.inbox[k].id != Some(c.next + 1))
    || exists i: nat :: EndsWait(c.inbox, c.next + 1, i) && (c.inbox[i].Unreadable? || c.inbox[i].body.Malformed?)
  }

  lemma {:induction false} AwaitFinds(inbox: seq<Frame>, id: nat, i: nat)
    requires EndsWait(inbox, id, i)
    ensures Await(inbox, id) == inbox[i..]
  {
    if i > 0 {
      assert !inbox[0].Unreadable? && inbox[0].id != Some(id);
      AwaitFinds(inbox[1..], id, i - 1);
    }
  }

  lemma {:induction false} AwaitFindsNothing(inbox: seq<Frame>, id: nat)
    requires forall k :: 0 <= k < |inbox| ==> !inbox[k].Unreadable? && inbox[k].id != Some(id)
    ensures Await(inbox, id) == []
  {
    if inbox != [] { AwaitFindsNothing(inbox[1..], id); }
  }

  lemma CallAnswers(c: Conn, call: Method, turn: string, body: Body, rest: seq<Frame>)
    requires Answered(c, body, rest)
    ensures Call(c, call, turn, Open).0 == Conn(c.next + 1, rest, c.sent + [Sending(c.next + 1, call, turn)])
    ensures body.Result? ==> Call(c, call, turn, Open).1 == Got(body.payload)
    ensures body.Error? ==> Call(c, call, turn, Open).1 == Failed(RpcFailed(call, body.code, body.message))
  {
    var i: nat :| EndsWait(c.inbox, c.next + 1, i) && !c.inbox[i].Unreadable?
      && c.inbox[i].body == body && rest == c.inbox[i + 1..];
    AwaitFinds(c.inbox, c.next + 1, i);
  }

  lemma CallBreaks(c: Conn, call: Method, turn: string)
    requires Unanswered(c)
    ensures Call(c, call, turn, Open).1 == Failed(Broken)
  {
    if i: nat :| EndsWait(c.inbox, c.next + 1, i) && (c.inbox[i].Unreadable? || c.inbox[i].body.Malformed?) {
      AwaitFinds(c.inbox, c.next + 1, i);
    } else {
      AwaitFindsNothing(c.inbox, c.next + 1);
    }
  }

  /** One way or the other, every request ends. */
  lemma {:induction false} EveryWaitEnds(inbox: seq<Frame>, id: nat) returns (i: nat)
    ensures i <= |inbox| && forall k :: 0 <= k < i ==> !inbox[k].Unreadable? && inbox[k].id != Some(id)
    ensures i < |inbox| ==> EndsWait(inbox, id, i)
  {
    if inbox == [] || inbox[0].Unreadable? || inbox[0].id == Some(id) { return 0; }
    var j := EveryWaitEnds(inbox[1..], id);
    i := j + 1;
    forall k | 0 <= k < i ensures !inbox[k].Unreadable? && inbox[k].id != Some(id) {
      if k > 0 { assert inbox[k] == inbox[1..][k - 1]; }
    }
  }

  lemma AnsweredOrNot(c: Conn)
    ensures Unanswered(c) || exists body, rest :: Answered(c, body, rest) && !body.Malformed?
  {
    var i := EveryWaitEnds(c.inbox, c.next + 1);
    if i < |c.inbox| && !c.inbox[i].Unreadable? && !c.inbox[i].body.Malformed? {
      assert Answered(c, c.inbox[i].body, c.inbox[i + 1..]);
    }
  }

  // ----- the look -----

  /** Turn `j` is the first in progress. */
  ghost predicate FirstInProgress(turns: seq<Turn>, j: nat) {
    j < |turns| && turns[j].inProgress && forall k :: 0 <= k < j ==> !turns[k].inProgress
  }

  ghost predicate NoneInProgress(turns: seq<Turn>) { forall k :: 0 <= k < |turns| ==> !turns[k].inProgress }

  lemma {:induction false} ActiveTurnIs(turns: seq<Turn>, j: nat)
    requires FirstInProgress(turns, j)
    ensures ActiveTurn(turns) == turns[j].id
  {
    if j > 0 {
      assert !turns[0].inProgress;
      ActiveTurnIs(turns[1..], j - 1);
    }
  }

  lemma {:induction false} NoActiveTurn(turns: seq<Turn>)
    requires NoneInProgress(turns)
    ensures ActiveTurn(turns) == ""
  {
    if turns != [] { NoActiveTurn(turns[1..]); }
  }

  /** What a look shows: the kind from the first answer and the turns from the second, unless the first
      is about another thread. */
  lemma LookShows(c: Conn, thread: string, p: Payload, q: Payload, mid: seq<Frame>, rest: seq<Frame>)
    requires Answered(c, Result(p), mid)
    requires Answered(Call(c, ThreadRead, "", Open).0, Result(q), rest)
    ensures Look(c, thread).1 == if p.thread == thread then Inspection.Thread(p.status, q.turns) else WrongThread
    ensures Look(c, thread).0.next == c.next + 2 && Look(c, thread).0.inbox == rest
  {
    CallAnswers(c, ThreadRead, "", Result(p), mid);
    CallAnswers(Call(c, ThreadRead, "", Open).0, TurnsList, "", Result(q), rest);
  }

  // ----- what a dispatch comes to -----

  /** A failure as the client reports it: the server's error with the request it answers, and everything
      else that goes wrong with the connection or the reply as a broken one. */
  ghost predicate Reports(c: Conn, call: Method, out: Outcome) {
    && (forall code, message, rest :: Answered(c, Error(code, message), rest) ==>
          out == Retained(RpcFailed(call, code, message)))
    && (forall p, rest :: Answered(c, Result(p), rest) ==>
          var turn := if call.TurnSteer? then p.steered else p.started;
          out == if turn == "" then Retained(Broken) else Acknowledged(call, turn))
    && (Unanswered(c) ==> out == Retained(Broken))
  }

  /** What a start comes to: held by its gate, broken off, or answered. */
  ghost predicate StartComesTo(c: Conn, gate: Gate, out: Outcome) {
    match gate
    case Closed(f) => out == Retained(f)
    case WriteFails => out == Retained(Broken)
    case Open => Reports(c, TurnStart, out)
  }

  lemma TryAnswered(c: Conn, d: Dispatch, body: Body, rest: seq<Frame>)
    requires Answered(c, body, rest) && !body.Malformed?
    ensures var v := Try(c, d, Open).1;
      && (body.Result? ==>
            var turn := if d.Steer? then body.payload.steered else body.payload.started;
            v == if turn == "" then Undelivered(Broken) else Delivered(turn))
      && (body.Error? && d.Steer? && IsIdleSteerRace(body.code, body.message) ==> v == Recheck)
      && (body.Error? && !(d.Steer? && IsIdleSteerRace(body.code, body.message)) ==>
            v == Undelivered(RpcFailed(if d.Steer? then TurnSteer else TurnStart, body.code, body.message)))
    ensures Try(c, d, Open).0.next == c.next + 1 && Try(c, d, Open).0.inbox == rest
  {
    CallAnswers(c, MethodOf(d), TurnOf(d), body, rest);
  }

  lemma TryUnanswered(c: Conn, d: Dispatch)
    requires Unanswered(c)
    ensures Try(c, d, Open).1 == Undelivered(Broken)
  {
    CallBreaks(c, MethodOf(d), TurnOf(d));
  }

  lemma StartReports(c: Conn, d: Dispatch, gate: Gate)
    requires !d.Steer?
    ensures StartComesTo(c, gate, Conclusion(d, Try(c, d, gate).1))
  {
    if gate.Open? {
      var out := Conclusion(d, Try(c, d, gate).1);
      forall code, message, rest | Answered(c, Error(code, message), rest)
        ensures out == Retained(RpcFailed(TurnStart, code, message))
      {
        TryAnswered(c, d, Error(code, message), rest);
      }
      forall p, rest | Answered(c, Result(p), rest)
        ensures out == if p.started == "" then Retained(Broken) else Acknowledged(TurnStart, p.started)
      {
        TryAnswered(c, d, Result(p), rest);
      }
      if Unanswered(c) { TryUnanswered(c, d); }
    }
  }

  // ----- what an attempt reports -----

  /** A thread that cannot be looked at, is another, is not loaded, or has no turn to steer is reported
      as just that; and an idle one is left alone while starts are held back. */
  lemma AttemptGivesUp(c: Conn, thread: string, noStart: bool, first: Gate, second: Gate)
    ensures var seen, out := FirstLook(c, thread), Deliver(c, thread, noStart, first, second).1;
      && (seen.InspectFailed? ==> out == Retained(seen.failure))
      && (seen.WrongThread? ==> out == Retained(Broken))
      && (seen.Thread? && seen.kind !in {"idle", "active"} ==> out == Retained(Unavailable(seen.kind)))
      && (seen.Thread? && seen.kind == "idle" && noStart ==> out == Retained(HeldBack))
      && (seen.Thread? && seen.kind == "active" && NoneInProgress(seen.turns) ==> out == Retained(Broken))
  {
    var seen := FirstLook(c, thread);
    if seen.Thread? && NoneInProgress(seen.turns) { NoActiveTurn(seen.turns); }
    if Decide(noStart, seen).GiveUp? { DeliverGivesUp(c, thread, noStart, first, second); }
  }

  /** An idle thread is started, unless starts are held back, and the attempt reports what the start
      comes to. */
  lemma IdleIsStarted(c: Conn, thread: string, first: Gate, second: Gate)
    requires FirstLook(c, thread).Thread? && FirstLook(c, thread).kind == "idle"
    ensures StartComesTo(AfterFirstLook(c, thread), first, Deliver(c, thread, false, first, second).1)
  {
    DeliverTries(c, thread, false, first, second);
    OnlySteersRecheck(AfterFirstLook(c, thread), StartIdle, first);
    StartReports(AfterFirstLook(c, thread), StartIdle, first);
  }

  lemma OnlySteersRecheck(c: Conn, d: Dispatch, gate: Gate)
    requires !d.Steer?
    ensures !Try(c, d, gate).1.Recheck?
  {
  }

  /** The thread is active, and turn `j` is the first in progress. */
  ghost predicate Steers(c: Conn, thread: string, j: nat) {
    var seen := FirstLook(c, thread);
    seen.Thread? && seen.kind == "active" && FirstInProgress(seen.turns, j) && seen.turns[j].id != ""
  }

  lemma SteersThatTurn(c: Conn, thread: string, noStart: bool, j: nat, first: Gate, second: Gate)
    requires Steers(c, thread, j)
    ensures Deliver(c, thread, noStart, first, second)
         == Attempt(AfterFirstLook(c, thread), thread, Steer(FirstLook(c, thread).turns[j].id), first, second)
  {
    ActiveTurnIs(FirstLook(c, thread).turns, j);
    DeliverTries(c, thread, noStart, first, second);
  }

  ghost predicate SteerComesTo(c: Conn, gate: Gate, out: Outcome) {
    match gate
    case Closed(f) => out == Retained(f)
    case WriteFails => out == Retained(Broken)
    case Open =>
      && (Unanswered(c) ==> out == Retained(Broken))
      && (forall p, rest :: Answered(c, Result(p), rest) ==>
            out == if p.steered == "" then Retained(Broken) else Acknowledged(TurnSteer, p.steered))
      && (forall code, message, rest :: Answered(c, Error(code, message), rest) ==>
            IsIdleSteerRace(code, message) || out == Retained(RpcFailed(TurnSteer, code, message)))
  }

  /** The steer of an active thread, held back or not: a gate that is closed and a write that fails are
      reported as such, an answer with its turn acknowledges, and an error that is not the recognised one
      is reported as an error of the steer, with the server's code and message. */
  lemma SteerReports(c: Conn, thread: string, noStart: bool, j: nat, first: Gate, second: Gate)
    requires Steers(c, thread, j)
    ensures SteerComesTo(AfterFirstLook(c, thread), first, Deliver(c, thread, noStart, first, second).1)
  {
    var c1, d := AfterFirstLook(c, thread), Steer(FirstLook(c, thread).turns[j].id);
    SteersThatTurn(c, thread, noStart, j, first, second);
    if first.Open? {
      if Unanswered(c1) { TryUnanswered(c1, d); }
      var out := Deliver(c, thread, noStart, first, second).1;
      forall p, rest | Answered(c1, Result(p), rest)
        ensures out == if p.steered == "" then Retained(Broken) else Acknowledged(TurnSteer, p.steered)
      {
        TryAnswered(c1, d, Result(p), rest);
      }
      forall code, message, rest | Answered(c1, Error(code, message), rest) && !IsIdleSteerRace(code, message)
        ensures out == Retained(RpcFailed(TurnSteer, code, message))
      {
        TryAnswered(c1, d, Error(code, message), rest);
      }
    }
  }

  /** After the recognised error: a second look that fails, or shows another thread or one that is not
      idle, is reported as such, and an idle one is started. */
  lemma RefusedSteerReports(c: Conn, thread: string, noStart: bool, j: nat, second: Gate, code: int, message: string,
                            rest: seq<Frame>, c2: Conn)
    requires Steers(c, thread, j) && IsIdleSteerRace(code, message)
    requires Answered(AfterFirstLook(c, thread), Error(code, message), rest)
    requires c2 == Try(AfterFirstLook(c, thread), Steer(FirstLook(c, thread).turns[j].id), Open).0
    ensures c2.next == AfterFirstLook(c, thread).next + 1 && c2.inbox == rest
    ensures var seen, out := Look(c2, thread).1, Deliver(c, thread, noStart, Open, second).1;
      && (seen.InspectFailed? ==> out == Retained(seen.failure))
      && (seen.WrongThread? ==> out == Retained(Broken))
      && (seen.Thread? && seen.kind != "idle" ==> out == Retained(Unavailable(seen.kind)))
      && (seen.Thread? && seen.kind == "idle" ==> StartComesTo(Look(c2, thread).0, second, out))
  {
    SteersThatTurn(c, thread, noStart, j, Open, second);
    TryAnswered(AfterFirstLook(c, thread), Steer(FirstLook(c, thread).turns[j].id), Error(code, message), rest);
    StartReports(Look(c2, thread).0, StartStale, second);
  }
}
