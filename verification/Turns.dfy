/** What a turn of the worker comes to: it delivers whatever can be delivered, however earlier attempts
    ended; and an error that leaves open whether the text arrived is on record, exactly then. */
module Turns {
  import opened Prelude
  import opened Messages
  import opened AppClient
  import opened Bindings
  import opened Conversation
  import opened ConversationTheorems
  import opened Attempts
  import opened Delivery
  import opened DeliverPath
  import opened Handler
  import opened HandlerTheorems

  // ----- a turn drains -----

  /** The messages a generation delivers. */
  function MeantFor(w: World, nick: string, route: Route): Rec -> Option<Msg> {
    (r: Rec) => if w.addressed(r.msg, nick, route) then Some(r.msg) else None
  }

  /** A binding whose cursor has come to `at`, with its failure cleared if anything was delivered. */
  function Standing(b: Binding, at: nat, cleared: bool): Binding {
    if cleared
    then Binding(b.id, b.route, b.enabled, at, b.replay, false, "accepted", None, false)
    else Binding(b.id, b.route, b.enabled, at, b.replay, b.blocked, b.state, b.failure, b.noStart)
  }

  ghost predicate Sofar(w: World, nick: string, session: string, b: Binding, recs: seq<Rec>, k: nat, p: PassState,
                        at: seq<nat>) {
    && k <= |recs| && InStep(b, session, p, b.offset + k)
    && p.stored == Some(Standing(b, b.offset + k, p.delivered != []))
    && Selects(p.delivered, recs[..k], MeantFor(w, nick, b.route), at)
  }

  lemma ProgressStands(b: Binding, at: nat, cleared: bool, meant: bool)
    ensures WithProgress(Standing(b, at, cleared), at + 1, meant) == Standing(b, at + 1, cleared || meant)
  {
  }

  lemma DeliveredNext(w: World, nick: string, b: Binding, recs: seq<Rec>, k: nat, done: seq<Msg>, at: seq<nat>)
    returns (now: seq<nat>)
    requires k < |recs| && Selects(done, recs[..k], MeantFor(w, nick, b.route), at)
    ensures Selects(WithAddressed(w, nick, b.route, recs[k], done), recs[..k + 1], MeantFor(w, nick, b.route), now)
    ensures WithAddressed(w, nick, b.route, recs[k], done) != [] <==>
      done != [] || w.addressed(recs[k].msg, nick, b.route)
  {
    assert recs[..k + 1] == recs[..k] + [recs[k]];
    now := SelectsSnoc(done, recs[..k], MeantFor(w, nick, b.route), at, recs[k],
                       WithAddressed(w, nick, b.route, recs[k], done), recs[..k + 1]);
  }

  lemma SofarNext(w: World, nick: string, session: string, b: Binding, recs: seq<Rec>, k: nat, fate: Fate,
                  p: PassState, at: seq<nat>)
    returns (q: PassState, now: seq<nat>)
    requires Sofar(w, nick, session, b, recs, k, p, at) && k < |recs|
    requires Smooth(w, nick, b, recs[k], fate) && recs[k].end == b.offset + k + 1
    ensures PassStep(w, nick, session, recs[k], fate, p) == (q, true)
    ensures Sofar(w, nick, session, b, recs, k + 1, q, now)
  {
    var here, meant := b.offset + k, w.addressed(recs[k].msg, nick, b.route);
    ProgressStands(b, here, p.delivered != [], meant);
    now := DeliveredNext(w, nick, b, recs, k, p.delivered, at);
    q := NextState(w, nick, session, b, recs[k], fate, p, here);
    SofarFrom(w, nick, session, b, recs, k + 1, q, now);
  }

  lemma SofarFrom(w: World, nick: string, session: string, b: Binding, recs: seq<Rec>, k: nat, q: PassState,
                  at: seq<nat>)
    requires k <= |recs| && InStep(b, session, q, b.offset + k)
    requires q.stored == Some(Standing(b, b.offset + k, q.delivered != []))
    requires Selects(q.delivered, recs[..k], MeantFor(w, nick, b.route), at)
    ensures Sofar(w, nick, session, b, recs, k, q, at)
  {
  }

  lemma NextState(w: World, nick: string, session: string, b: Binding, rec: Rec, fate: Fate, p: PassState, at: nat)
    returns (q: PassState)
    requires InStep(b, session, p, at) && rec.end == at + 1 && Smooth(w, nick, b, rec, fate)
    ensures PassStep(w, nick, session, rec, fate, p) == (q, true) && InStep(b, session, q, at + 1)
    ensures q.stored == Some(WithProgress(p.stored.value, at + 1, w.addressed(rec.msg, nick, b.route)))
    ensures q.delivered == WithAddressed(w, nick, b.route, rec, p.delivered)
  {
    q := PassState(Some(WithProgress(p.stored.value, at + 1, w.addressed(rec.msg, nick, b.route))),
                   p.snap.(offset := at + 1), WithAddressed(w, nick, b.route, rec, p.delivered));
    SmoothStep(w, nick, session, b, rec, fate, p, q, at);
  }

  lemma SofarStarts(w: World, nick: string, session: string, b: Binding, recs: seq<Rec>)
    requires b.enabled && b.route.session == session
    ensures Sofar(w, nick, session, b, recs, 0, PassState(Some(b), b, []), [])
  {
    assert b.(offset := b.offset) == b;
  }

  /** A pass gets past the first `k` records if nothing goes wrong with these. */
  lemma {:induction false} PassReaches(w: World, nick: string, session: string, b: Binding, recs: seq<Rec>, k: nat,
                                       fates: nat -> Fate)
    returns (p: PassState, at: seq<nat>)
    requires b.enabled && b.route.session == session && k <= |recs| && AllSmooth(w, nick, b, recs[..k], fates)
    ensures Pass(w, nick, session, recs, 0, fates, PassState(Some(b), b, []))
         == Pass(w, nick, session, recs, k, fates, p)
    ensures Sofar(w, nick, session, b, recs, k, p, at)
    decreases k
  {
    if k == 0 {
      SofarStarts(w, nick, session, b, recs);
      return PassState(Some(b), b, []), [];
    }
    forall i | 0 <= i < k - 1
      ensures Smooth(w, nick, b, recs[..k - 1][i], fates(i)) && recs[..k - 1][i].end == b.offset + i + 1
    {
      assert recs[..k - 1][i] == recs[..k][i];
    }
    var before, earlier := PassReaches(w, nick, session, b, recs, k - 1, fates);
    assert recs[k - 1] == recs[..k][k - 1];
    p, at := SofarNext(w, nick, session, b, recs, k - 1, fates(k - 1), before, earlier);
    PassNext(w, nick, session, recs, k - 1, fates, before, p);
  }

  /** A turn over the records from `from` on ends like this: the messages meant for the generation, each
      once and in order, have been delivered; the cursor is where the log stops; if anything was
      delivered no failure is left; and nothing else has changed. */
  ghost predicate TurnEnds(w: World, nick: string, log: Log, b: Binding, from: nat,
                           end: (Option<Binding>, seq<Msg>), at: seq<nat>) {
    var recs := ReadFrom(log, from);
    && StopsAt(log, from + |recs|)
    && end.0 == Some(Standing(b, from + |recs|, end.1 != []))
    && Selects(end.1, recs, MeantFor(w, nick, b.route), at)
  }

  lemma OneTurnIs(w: World, nick: string, session: string, log: Log, b: Binding, fates: nat -> Fate)
    requires b.enabled && b.route.session == session
    ensures var last := Pass(w, nick, session, ReadRecords(log, b.offset), 0, fates, PassState(Some(b), b, []));
      OneTurn(w, nick, session, log, Some(b), true, true, fates) == (last.stored, last.delivered)
  {
  }

  /** Every turn over a stored binding that is enabled and of the running session drains the log, if the
      file operations and the attempts of that turn succeed: it does not matter what the binding says of
      earlier attempts. */
  lemma TurnDrains(w: World, nick: string, session: string, log: Log, b: Binding, fates: nat -> Fate,
                   end: (Option<Binding>, seq<Msg>))
    returns (at: seq<nat>)
    requires b.enabled && b.route.session == session && b.offset <= |log|
    requires AllSmooth(w, nick, b, ReadFrom(log, b.offset), fates)
    requires end == OneTurn(w, nick, session, log, Some(b), true, true, fates)
    ensures TurnEnds(w, nick, log, b, b.offset, end, at)
  {
    var recs := ReadFrom(log, b.offset);
    assert recs[..|recs|] == recs;
    var last: PassState;
    last, at := PassReaches(w, nick, session, b, recs, |recs|, fates);
    ReadStops(log, b.offset);
    OneTurnIs(w, nick, session, log, b, fates);
  }

  /** A cursor past the end of the log counts as one at its beginning. */
  lemma TurnStartsOver(w: World, nick: string, session: string, log: Log, b: Binding, fates: nat -> Fate,
                       end: (Option<Binding>, seq<Msg>))
    returns (at: seq<nat>)
    requires b.enabled && b.route.session == session && b.offset > |log|
    requires ReadFrom(log, 0) != [] && AllSmooth(w, nick, b.(offset := 0), ReadFrom(log, 0), fates)
    requires end == OneTurn(w, nick, session, log, Some(b), true, true, fates)
    ensures TurnEnds(w, nick, log, b, 0, end, at)
  {
    var recs, b0 := ReadFrom(log, 0), b.(offset := 0);
    var start, start0 := PassState(Some(b), b, []), PassState(Some(b0), b0, []);
    var q, now := SofarNext(w, nick, session, b0, recs, 0, fates(0), start0, []);
    FirstStepIsSame(w, nick, session, b, recs[0], fates(0), q);
    PassNext(w, nick, session, recs, 0, fates, start, q);
    PassNext(w, nick, session, recs, 0, fates, start0, q);
    at := TurnDrains(w, nick, session, log, b0, fates, end);
  }

  lemma FirstStepIsSame(w: World, nick: string, session: string, b: Binding, rec: Rec, fate: Fate, q: PassState)
    requires var b0 := b.(offset := 0);
      PassStep(w, nick, session, rec, fate, PassState(Some(b0), b0, [])) == (q, true)
    ensures PassStep(w, nick, session, rec, fate, PassState(Some(b), b, [])) == (q, true)
  {
    assert OutcomeOf(b, fate) == OutcomeOf(b.(offset := 0), fate);
  }

  ghost predicate HaveIds(recs: seq<Rec>) { forall k :: 0 <= k < |recs| ==> recs[k].msg.eventId != "" }

  lemma {:induction false} EndsFollow(log: Log, at: nat)
    ensures forall k :: 0 <= k < |ReadFrom(log, at)| ==> ReadFrom(log, at)[k].end == at + k + 1
    decreases |log| - at
  {
    if at < |log| && log[at].Line? {
      EndsFollow(log, at + 1);
      assert ReadFrom(log, at) == [Rec(log[at].msg, at + 1)] + ReadFrom(log, at + 1);
    }
  }

  /** So an idle thread that takes what it is given gets every message, unless starts are held back. */
  lemma IdleTurnDrains(w: World, nick: string, session: string, log: Log, b: Binding, turn: string,
                       end: (Option<Binding>, seq<Msg>))
    returns (at: seq<nat>)
    requires b.enabled && b.route.session == session && b.offset <= |log| && turn != "" && !b.noStart
    requires HaveIds(ReadFrom(log, b.offset))
    requires end == OneTurn(w, nick, session, log, Some(b), true, true, (k: nat) => IdleFate(b.route.thread, turn))
    ensures TurnEnds(w, nick, log, b, b.offset, end, at)
  {
    var recs, fates := ReadFrom(log, b.offset), (k: nat) => IdleFate(b.route.thread, turn);
    EndsFollow(log, b.offset);
    forall k | 0 <= k < |recs| ensures Smooth(w, nick, b, recs[k], fates(k)) {
      IdleIsSmooth(w, nick, b, recs[k], turn);
    }
    at := TurnDrains(w, nick, session, log, b, fates, end);
  }

  // ----- what a failed attempt leaves -----

  /** This attempt steers turn `j`, and the server answers with an error that is not the recognised one. */
  ghost predicate SteerFails(b: Binding, fate: Fate, j: nat, code: int, message: string, rest: seq<Frame>) {
    var c, thread := Conn(0, fate.frames, []), b.route.thread;
    && Steers(c, thread, j) && fate.first.loaded && fate.first.written
    && Answered(AfterFirstLook(c, thread), Error(code, message), rest) && !IsIdleSteerRace(code, message)
  }

  /** This attempt starts an idle thread, and the server answers with an error. */
  ghost predicate StartFails(b: Binding, fate: Fate, code: int, message: string, rest: seq<Frame>) {
    var c, thread := Conn(0, fate.frames, []), b.route.thread;
    && FirstLook(c, thread).Thread? && FirstLook(c, thread).kind == "idle" && !b.noStart
    && fate.first.loaded && fate.first.written
    && Answered(AfterFirstLook(c, thread), Error(code, message), rest)
  }

  /** The record is one to deliver, and the attempt is made. */
  ghost predicate Due(w: World, nick: string, b: Binding, rec: Rec, fate: Fate) {
    && !fate.cancelled && w.addressed(rec.msg, nick, b.route) && rec.msg.eventId != "" && fate.locked && fate.current
  }

  /** The same binding, blocked by this failure. */
  function BlockedBy(b: Binding, state: string, f: Failure, noStart: bool): Binding {
    Binding(b.id, b.route, b.enabled, b.offset, b.replay, true, state, Some(f), noStart)
  }

  lemma SteerFailureIs(b: Binding, fate: Fate, j: nat, code: int, message: string, rest: seq<Frame>)
    requires SteerFails(b, fate, j, code, message, rest)
    ensures OutcomeOf(b, fate) == Retained(RpcFailed(TurnSteer, code, message))
  {
    SteerReports(Conn(0, fate.frames, []), b.route.thread, b.noStart, j, GateOf(true, fate.first),
                 GateOf(true, fate.second));
  }

  lemma SteerFailureEvents(nick: string, p: PassState, fate: Fate, j: nat, code: int, message: string,
                           rest: seq<Frame>)
    requires SteerFails(p.snap, fate, j, code, message, rest) && Progresses(p, fate)
    ensures var turn := FirstLook(Conn(0, fate.frames, []), p.snap.route.thread).turns[j].id;
      AttemptedEvents(nick, fate, p)
        == [Sent(p.snap.id, p.snap.offset, nick, Steer(turn), fate.first.taken), Flagged(p.snap.id)]
  {
    var c, thread := Conn(0, fate.frames, []), p.snap.route.thread;
    var c1, d := AfterFirstLook(c, thread), Steer(FirstLook(c, thread).turns[j].id);
    ActiveTurnIs(FirstLook(c, thread).turns, j);
    TryAnswered(c1, d, Error(code, message), rest);
    SteerFailureIs(p.snap, fate, j, code, message, rest);
    DeliverTries(c, thread, p.snap.noStart, Open, GateOf(true, fate.second));
  }

  /** An active thread answers the steer with an error that is not the recognised one: the pass ends
      there, with the error on record and starts held back, and the send and the flag in the history. */
  lemma SteerErrorIsFlagged(w: World, nick: string, session: string, rec: Rec, fate: Fate, p: PassState, j: nat,
                            code: int, message: string, rest: seq<Frame>)
    requires Due(w, nick, p.snap, rec, fate) && MayDispatch(p.stored, p.snap, session) && Progresses(p, fate)
    requires SteerFails(p.snap, fate, j, code, message, rest)
    ensures var f := RpcFailed(TurnSteer, code, message);
      PassStep(w, nick, session, rec, fate, p)
        == (p.(stored := Some(BlockedBy(p.stored.value, "steer_error_blocked", f, true))), false)
    ensures var turn := FirstLook(Conn(0, fate.frames, []), p.snap.route.thread).turns[j].id;
      RecordEvents(w, nick, session, rec, fate, p)
        == [Sent(p.snap.id, p.snap.offset, nick, Steer(turn), fate.first.taken), Flagged(p.snap.id)]
  {
    SteerFailureIs(p.snap, fate, j, code, message, rest);
    SteerFailureEvents(nick, p, fate, j, code, message, rest);
  }

  lemma StartFailureIs(nick: string, p: PassState, fate: Fate, code: int, message: string, rest: seq<Frame>)
    requires StartFails(p.snap, fate, code, message, rest)
    ensures OutcomeOf(p.snap, fate) == Retained(RpcFailed(TurnStart, code, message))
    ensures AttemptedEvents(nick, fate, p) == [Sent(p.snap.id, p.snap.offset, nick, StartIdle, fate.first.taken)]
  {
    var c, thread := Conn(0, fate.frames, []), p.snap.route.thread;
    TryAnswered(AfterFirstLook(c, thread), StartIdle, Error(code, message), rest);
    DeliverTries(c, thread, false, Open, GateOf(true, fate.second));
  }

  /** A refused start ends the pass with the error on record; nothing is held back because of it. */
  lemma StartErrorIsRecorded(w: World, nick: string, session: string, rec: Rec, fate: Fate, p: PassState, code: int,
                             message: string, rest: seq<Frame>)
    requires Due(w, nick, p.snap, rec, fate) && MayDispatch(p.stored, p.snap, session) && Progresses(p, fate)
    requires StartFails(p.snap, fate, code, message, rest)
    ensures var f := RpcFailed(TurnStart, code, message);
      PassStep(w, nick, session, rec, fate, p)
        == (p.(stored := Some(BlockedBy(p.stored.value, FailureState(f), f, p.stored.value.noStart))), false)
    ensures RecordEvents(w, nick, session, rec, fate, p)
         == [Sent(p.snap.id, p.snap.offset, nick, StartIdle, fate.first.taken)]
  {
    StartFailureIs(nick, p, fate, code, message, rest);
  }

  /** A turn whose `k`-th record meets such an error after the others went well: these are delivered, and
      the cursor stays in front of the record, which is retried without starting the thread. */
  lemma TurnFlags(w: World, nick: string, session: string, log: Log, b: Binding, fates: nat -> Fate, recs: seq<Rec>,
                  k: nat, j: nat, code: int, message: string, rest: seq<Frame>, end: (Option<Binding>, seq<Msg>))
    returns (at: seq<nat>)
    requires b.enabled && b.route.session == session && b.offset <= |log| && recs == ReadFrom(log, b.offset)
    requires k < |recs| && AllSmooth(w, nick, b, recs[..k], fates)
    requires Due(w, nick, b, recs[k], fates(k)) && fates(k).loaded && fates(k).saved
    requires SteerFails(b, fates(k), j, code, message, rest)
    requires end == OneTurn(w, nick, session, log, Some(b), true, true, fates)
    ensures end.0 == Some(BlockedBy(b.(offset := b.offset + k), "steer_error_blocked",
                                    RpcFailed(TurnSteer, code, message), true))
    ensures Selects(end.1, recs[..k], MeantFor(w, nick, b.route), at)
  {
    var p: PassState;
    p, at := PassReaches(w, nick, session, b, recs, k, fates);
    var q := FlaggedFrom(w, nick, session, b, recs, k, fates(k), p, at, j, code, message, rest);
    PassStops(w, nick, session, recs, k, fates, p, q);
    OneTurnIs(w, nick, session, log, b, fates);
  }

  lemma PassStops(w: World, nick: string, session: string, recs: seq<Rec>, k: nat, fates: nat -> Fate, p: PassState,
                  q: PassState)
    requires k < |recs| && PassStep(w, nick, session, recs[k], fates(k), p) == (q, false)
    ensures Pass(w, nick, session, recs, k, fates, p) == q
  {
  }

  lemma BlockedStands(b: Binding, at: nat, cleared: bool, state: string, f: Failure)
    ensures BlockedBy(Standing(b, at, cleared), state, f, true) == BlockedBy(b.(offset := at), state, f, true)
  {
  }

  lemma FlaggedFrom(w: World, nick: string, session: string, b: Binding, recs: seq<Rec>, k: nat, fate: Fate,
                    p: PassState, at: seq<nat>, j: nat, code: int, message: string, rest: seq<Frame>)
    returns (q: PassState)
    requires Sofar(w, nick, session, b, recs, k, p, at) && k < |recs| && Due(w, nick, b, recs[k], fate)
    requires fate.loaded && fate.saved && SteerFails(b, fate, j, code, message, rest)
    ensures PassStep(w, nick, session, recs[k], fate, p) == (q, false) && q.delivered == p.delivered
    ensures q.stored == Some(BlockedBy(b.(offset := b.offset + k), "steer_error_blocked",
                                       RpcFailed(TurnSteer, code, message), true))
  {
    var f := RpcFailed(TurnSteer, code, message);
    BlockedStands(b, b.offset + k, p.delivered != [], "steer_error_blocked", f);
    q := p.(stored := Some(BlockedBy(p.stored.value, "steer_error_blocked", f, true)));
    SteerErrorIsFlagged(w, nick, session, recs[k], fate, p, j, code, message, rest);
  }

  // ----- flagged exactly then -----

  lemma AgainIsNoSteer(c: Conn, thread: string, gate: Gate)
    requires gate.Closed? ==> !SteerFailed(gate.failure)
    ensures var out := Again(c, thread, gate).1; out.Retained? ==> !SteerFailed(out.failure)
  {
    LookIs(c, thread);
  }

  lemma TryFailsAsSteer(c: Conn, d: Dispatch, gate: Gate) returns (rest: seq<Frame>)
    requires gate.Closed? ==> !SteerFailed(gate.failure)
    requires Try(c, d, gate).1.Undelivered? && SteerFailed(Try(c, d, gate).1.failure)
    ensures var f := Try(c, d, gate).1.failure;
      d.Steer? && gate.Open? && !IsIdleSteerRace(f.code, f.message) && Answered(c, Error(f.code, f.message), rest)
  {
    var i := EveryWaitEnds(c.inbox, c.next + 1);
    if i == |c.inbox| { AwaitFindsNothing(c.inbox, c.next + 1); } else { AwaitFinds(c.inbox, c.next + 1, i); }
    rest := c.inbox[i + 1..];
  }

  lemma {:induction false} ActiveIsFirst(turns: seq<Turn>) returns (j: nat)
    requires ActiveTurn(turns) != ""
    ensures FirstInProgress(turns, j) && turns[j].id == ActiveTurn(turns)
  {
    if turns[0].inProgress { return 0; }
    j := ActiveIsFirst(turns[1..]);
    j := j + 1;
    forall k | 0 <= k < j ensures !turns[k].inProgress { if k > 0 { assert turns[k] == turns[1..][k - 1]; } }
  }

  lemma SteerFailureMeans(b: Binding, fate: Fate) returns (j: nat, rest: seq<Frame>)
    requires OutcomeOf(b, fate).Retained? && SteerFailed(OutcomeOf(b, fate).failure)
    ensures var f := OutcomeOf(b, fate).failure; SteerFails(b, fate, j, f.code, f.message, rest)
  {
    var c, thread, first, second :=
      Conn(0, fate.frames, []), b.route.thread, GateOf(true, fate.first), GateOf(true, fate.second);
    FirstLookIsHonest(c, thread);
    var seen, c1 := FirstLook(c, thread), AfterFirstLook(c, thread);
    var choice := Decide(b.noStart, seen);
    if choice.GiveUp? { DeliverGivesUp(c, thread, b.noStart, first, second); }
    DeliverTries(c, thread, b.noStart, first, second);
    AgainIsNoSteer(Try(c1, choice.dispatch, first).0, thread, second);
    rest := TryFailsAsSteer(c1, choice.dispatch, first);
    j := ActiveIsFirst(seen.turns);
  }

  /** The flag that holds starts back is raised exactly by such an error, when it can be saved. */
  lemma FlaggedExactly(w: World, nick: string, session: string, rec: Rec, fate: Fate, p: PassState)
    ensures Flagged(p.snap.id) in RecordEvents(w, nick, session, rec, fate, p)
      <==> Due(w, nick, p.snap, rec, fate) && MayDispatch(p.stored, p.snap, session) && Progresses(p, fate)
           && exists j, code, message, rest :: SteerFails(p.snap, fate, j, code, message, rest)
  {
    if Due(w, nick, p.snap, rec, fate) && MayDispatch(p.stored, p.snap, session) && Progresses(p, fate) {
      if j, code, message, rest :| SteerFails(p.snap, fate, j, code, message, rest) {
        SteerErrorIsFlagged(w, nick, session, rec, fate, p, j, code, message, rest);
      }
    }
    if Flagged(p.snap.id) in RecordEvents(w, nick, session, rec, fate, p) {
      var sub, c, thread := Subject(p.snap.id, p.snap.offset, nick), Conn(0, fate.frames, []), p.snap.route.thread;
      AttemptSavesNothing(sub, c, thread, p.snap.noStart, fate.first, fate.second);
      var j, rest := SteerFailureMeans(p.snap, fate);
    }
  }
}
