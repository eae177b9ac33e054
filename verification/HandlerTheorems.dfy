/** The worker's turn drains its queue; every turn, bind and unbind is a run of the step system that
    leaves exactly the history of what was sent and saved; and reuse never writes. */
module HandlerTheorems {
  import opened Prelude
  import opened Messages
  import opened AppClient
  import opened Bindings
  import opened Subscriptions
  import opened Conversation
  import opened ConversationTheorems
  import opened Delivery
  import opened DeliveryInvariant
  import opened DeliveryHistory
  import opened DeliverPath
  import opened Handler

  // ----- drain -----

  /** `done`, then the records from the k-th on that the generation delivers. */
  function AddressedIn(w: World, nick: string, route: Route, recs: seq<Rec>, k: nat, done: seq<Msg>): seq<Msg>
    decreases |recs| - k
  {
    if k >= |recs| then done
    else AddressedIn(w, nick, route, recs, k + 1, WithAddressed(w, nick, route, recs[k], done))
  }

  function WithAddressed(w: World, nick: string, route: Route, rec: Rec, done: seq<Msg>): seq<Msg> {
    if w.addressed(rec.msg, nick, route) then done + [rec.msg] else done
  }

  /** The binding file loads and is written; and if the record is meant for the binding, it has an event
      id, the lock is granted and the delivery succeeds. */
  ghost predicate Smooth(w: World, nick: string, b: Binding, rec: Rec, fate: Fate) {
    && !fate.cancelled && fate.loaded && fate.saved
    && (w.addressed(rec.msg, nick, b.route) ==>
          rec.msg.eventId != "" && fate.locked && fate.current && OutcomeOf(b, fate).Acknowledged?)
  }

  /** The fate of a record in a well-behaved world: an idle thread that takes the text. */
  function IdleFate(thread: string, turn: string): Fate {
    var p := Payload(thread, "idle", [], turn, "");
    var frames := [Frame(Some(1), Result(p)), Frame(Some(2), Result(p)),
                   Frame(Some(3), Result(p)), Frame(Some(4), Result(p))];
    Fate(false, true, true, frames, SendFate(true, true, true), SendFate(true, true, true), true, true)
  }

  /** Such a world makes every delivery smooth. */
  lemma IdleIsSmooth(w: World, nick: string, b: Binding, rec: Rec, turn: string)
    requires !b.noStart && turn != "" && rec.msg.eventId != ""
    ensures Smooth(w, nick, b, rec, IdleFate(b.route.thread, turn))
  {
    var fate, p := IdleFate(b.route.thread, turn), Payload(b.route.thread, "idle", [], turn, "");
    var c0 := Conn(0, fate.frames, []);
    CallAnswered(c0, Initialize, "", p);
    var c1 := Call(c0, Initialize, "", Open).0;
    CallAnswered(c1, ThreadRead, "", p);
    var c2 := Call(c1, ThreadRead, "", Open).0;
    CallAnswered(c2, TurnsList, "", p);
    var c3 := Call(c2, TurnsList, "", Open).0;
    CallAnswered(c3, TurnStart, "", p);
    assert FirstLook(c0, b.route.thread) == Inspection.Thread("idle", []) && AfterFirstLook(c0, b.route.thread) == c3;
    DeliverTries(c0, b.route.thread, false, Open, Open);
  }

  /** The stored binding is the pass's own, with the cursor the pass is at. */
  ghost predicate InStep(b: Binding, session: string, p: PassState, at: nat) {
    && p.snap == b.(offset := at) && b.route.session == session
    && p.stored.Some? && MayUpdate(p.stored, b) && p.stored.value.route == b.route && p.stored.value.offset == at
  }

  lemma SmoothStep(w: World, nick: string, session: string, b: Binding, rec: Rec, fate: Fate, p: PassState,
                   q: PassState, at: nat)
    requires InStep(b, session, p, at) && rec.end == at + 1 && Smooth(w, nick, b, rec, fate)
    requires q == PassState(Some(WithProgress(p.stored.value, at + 1, w.addressed(rec.msg, nick, b.route))),
                            p.snap.(offset := at + 1), WithAddressed(w, nick, b.route, rec, p.delivered))
    ensures PassStep(w, nick, session, rec, fate, p) == (q, true) && InStep(b, session, q, at + 1)
  {
    assert OutcomeOf(p.snap, fate) == OutcomeOf(b, fate);
  }

  ghost predicate AllSmooth(w: World, nick: string, b: Binding, recs: seq<Rec>, fates: nat -> Fate) {
    forall k :: 0 <= k < |recs| ==> Smooth(w, nick, b, recs[k], fates(k)) && recs[k].end == b.offset + k + 1
  }

  lemma PassNext(w: World, nick: string, session: string, recs: seq<Rec>, k: nat, fates: nat -> Fate, p: PassState,
                 q: PassState)
    requires k < |recs| && PassStep(w, nick, session, recs[k], fates(k), p) == (q, true)
    ensures Pass(w, nick, session, recs, k, fates, p) == Pass(w, nick, session, recs, k + 1, fates, q)
  {
  }

  lemma {:induction false} PassDrains(w: World, nick: string, session: string, b: Binding, recs: seq<Rec>, k: nat,
                                      fates: nat -> Fate, p: PassState, end: PassState)
    requires AllSmooth(w, nick, b, recs, fates) && k <= |recs| && InStep(b, session, p, b.offset + k)
    requires end == Pass(w, nick, session, recs, k, fates, p)
    ensures InStep(b, session, end, b.offset + |recs|)
    ensures end.delivered == AddressedIn(w, nick, b.route, recs, k, p.delivered)
    decreases |recs| - k
  {
    if k < |recs| {
      var at := b.offset + k;
      var q := PassState(Some(WithProgress(p.stored.value, at + 1, w.addressed(recs[k].msg, nick, b.route))),
                         p.snap.(offset := at + 1), WithAddressed(w, nick, b.route, recs[k], p.delivered));
      SmoothStep(w, nick, session, b, recs[k], fates(k), p, q, at);
      PassNext(w, nick, session, recs, k, fates, p, q);
      PassDrains(w, nick, session, b, recs, k + 1, fates, q, end);
    }
  }

  /** The end of the log, or the front of a line that is no message. */
  ghost predicate StopsAt(log: Log, next: nat) { next <= |log| && (next == |log| || log[next].Garbage?) }

  /** The stored cursor is where the reader stops, and exactly the records meant for the binding have
      been delivered, in order. */
  ghost predicate Drained(w: World, nick: string, log: Log, b: Binding, recs: seq<Rec>, end: PassState) {
    && end.stored.Some? && end.stored.value.id == b.id && end.stored.value.enabled
    && end.stored.value.offset == b.offset + |recs| && StopsAt(log, b.offset + |recs|)
    && end.delivered == AddressedIn(w, nick, b.route, recs, 0, [])
  }

  lemma DrainedAfter(w: World, nick: string, session: string, log: Log, b: Binding, recs: seq<Rec>, fates: nat -> Fate,
                     start: PassState, end: PassState)
    requires b.enabled && b.route.session == session && start == PassState(Some(b), b, [])
    requires AllSmooth(w, nick, b, recs, fates) && end == Pass(w, nick, session, recs, 0, fates, start)
    requires StopsAt(log, b.offset + |recs|)
    ensures Drained(w, nick, log, b, recs, end)
  {
    assert InStep(b, session, start, b.offset);
    PassDrains(w, nick, session, b, recs, 0, fates, start, end);
  }

  /** With no further appends, a pass in which everything succeeds drains the queue. */
  lemma Drain(w: World, nick: string, session: string, log: Log, b: Binding, recs: seq<Rec>, fates: nat -> Fate,
              start: PassState, end: PassState)
    requires b.enabled && b.route.session == session && start == PassState(Some(b), b, [])
    requires b.offset <= |log| && recs == ReadFrom(log, b.offset)
    requires AllSmooth(w, nick, b, recs, fates) && end == Pass(w, nick, session, recs, 0, fates, start)
    ensures Drained(w, nick, log, b, recs, end)
  {
    ReadStops(log, b.offset);
    DrainedAfter(w, nick, session, log, b, recs, fates, start, end);
  }

  lemma {:induction false} ReadStops(log: Log, at: nat)
    requires at <= |log|
    ensures StopsAt(log, at + |ReadFrom(log, at)|)
    decreases |log| - at
  {
    if at < |log| && log[at].Line? { ReadStops(log, at + 1); }
  }

  // ----- authorization -----

  /** A send puts the text on the wire exactly if the binding loads and is still enabled, the pass's own
      and the running session's; and a changed binding is reported exactly if it loads and is not. */
  lemma AuthorizedWrites(c: Conn, d: Dispatch, stored: Option<Binding>, snap: Binding, session: string, f: SendFate)
    ensures var (e, v) := Try(c, d, GateOf(MayDispatch(stored, snap, session), f));
      && Wrote(c, e, if f.loaded && MayDispatch(stored, snap, session)
                     then [Sending(c.next + 1, MethodOf(d), TurnOf(d))] else [])
      && (v == Undelivered(BindingChanged) <==> f.loaded && !MayDispatch(stored, snap, session))
  {
    var gate := GateOf(MayDispatch(stored, snap, session), f);
    var writes := TryIs(c, d, gate);
  }

  // ----- the events of a pass -----

  function AttemptedEvents(nick: string, fate: Fate, p: PassState): seq<Event> {
    var told := DeliverEvents(Subject(p.snap.id, p.snap.offset, nick), Conn(0, fate.frames, []), p.snap.route.thread,
                              p.snap.noStart, fate.first, fate.second);
    told + Aftermath(fate, p, OutcomeOf(p.snap, fate))
  }

  /** The save or flag that follows an attempt, if any. */
  function Aftermath(fate: Fate, p: PassState, out: Outcome): seq<Event> {
    match out
    case Acknowledged(_, _) => if Progresses(p, fate) then [Saved(p.snap.id, p.snap.offset)] else []
    case Retained(f) => if Progresses(p, fate) && IsUnclassifiedSteer(f) then [Flagged(p.snap.id)] else []
  }

  /** What handling one record leaves in the history. */
  function RecordEvents(w: World, nick: string, session: string, rec: Rec, fate: Fate, p: PassState): seq<Event> {
    if fate.cancelled then []
    else if !w.addressed(rec.msg, nick, p.snap.route) then
      if Progresses(p, fate) then [Filtered(p.snap.id, p.snap.offset, nick)] else []
    else if !Dispatchable(p, session, rec, fate) then []
    else AttemptedEvents(nick, fate, p)
  }

  function PassEvents(w: World, nick: string, session: string, recs: seq<Rec>, k: nat, fates: nat -> Fate, p: PassState)
    : seq<Event>
    decreases |recs| - k
  {
    if k >= |recs| then [] else
    var (q, more) := PassStep(w, nick, session, recs[k], fates(k), p);
    RecordEvents(w, nick, session, recs[k], fates(k), p)
    + (if more then PassEvents(w, nick, session, recs, k + 1, fates, q) else [])
  }

  // ----- a pass is a run -----

  /** The step system is at the top of the worker's loop, in the state `p`, with these records left. */
  ghost predicate AtTop(s: Sup, p: PassState, left: seq<Rec>) {
    s.worker == Busy(Head, p.snap, left) && s.stored == p.stored && s.mutex == Free
  }

  /** Once a record is handled the worker is at the top again, or out of the pass; the stored binding is
      that of the pass, these events have happened, and nothing else has changed. */
  ghost predicate Handled(s: Sup, t: Sup, q: PassState, left: seq<Rec>, more: bool, events: seq<Event>) {
    t == s.(worker := if more then Busy(Head, q.snap, left) else Idle, stored := q.stored, hist := s.hist + events)
  }

  lemma LeavingIsAPath(w: World, s: Sup, p: PassState, left: seq<Rec>) returns (ls: seq<Label>, t: Sup)
    requires AtTop(s, p, left)
    ensures Run(w, s, ls) == Some(t) && t == Stop(s) && Handled(s, t, p, left, false, [])
  {
    RunOne(w, s, Leave);
    NoEvents(s.hist);
    return [Leave], Stop(s);
  }

  lemma FilterPath(w: World, s: Sup, p: PassState, left: seq<Rec>, fate: Fate) returns (ls: seq<Label>, t: Sup)
    requires left != [] && AtTop(s, p, left) && !w.addressed(left[0].msg, s.nick, p.snap.route)
    ensures Run(w, s, ls) == Some(t)
    ensures if Progresses(p, fate)
      then Handled(s, t, Progressed(p, left[0], false), left[1..], true, [Filtered(p.snap.id, p.snap.offset, s.nick)])
      else Handled(s, t, p, left[1..], false, [])
  {
    NoEvents(s.hist);
    RunOne(w, s, FilterEnter(fate.loaded));
    t := DoFilterEnter(w, s, fate.loaded).value;
    ls := [FilterEnter(fate.loaded)];
    if fate.loaded && MayUpdate(p.stored, p.snap) {
      RunOne(w, t, FilterExit(fate.saved));
      RunConcat(w, s, ls, [FilterExit(fate.saved)]);
      ls, t := ls + [FilterExit(fate.saved)], DoFilterExit(t, fate.saved).value;
    }
  }

  /** From the top of the loop to the start of a delivery attempt, or out. */
  lemma LockPath(w: World, s: Sup, p: PassState, left: seq<Rec>, fate: Fate) returns (ls: seq<Label>, t: Sup)
    requires left != [] && AtTop(s, p, left) && w.addressed(left[0].msg, s.nick, p.snap.route)
    ensures Run(w, s, ls) == Some(t)
    ensures t == if Dispatchable(p, s.session, left[0], fate) then Goto(s, Inspecting) else Stop(s)
  {
    if left[0].msg.eventId == "" {
      ls, t := LeavingIsAPath(w, s, p, left);
      return;
    }
    RunOne(w, s, LockThread(fate.locked));
    ls, t := [LockThread(fate.locked)], DoLockThread(w, s, fate.locked).value;
    if fate.locked {
      RunOne(w, t, CheckCurrent(fate.current));
      RunConcat(w, s, ls, [CheckCurrent(fate.current)]);
      ls, t := ls + [CheckCurrent(fate.current)], DoCheckCurrent(t, fate.current).value;
    }
  }

  lemma AckEnters(w: World, s: Sup, ok: bool)
    requires At(s, Acking) && s.mutex == Free && MayUpdate(s.stored, s.worker.snap)
    ensures Run(w, s, [AckEnter(ok)]) == Some(if ok then Goto(s, SavingAck).(mutex := ByWorker) else Stop(s))
  {
    RunOne(w, s, AckEnter(ok));
  }

  lemma AckExits(w: World, s: Sup, b: Binding, left: seq<Rec>, ok: bool)
    requires s.worker == Busy(SavingAck, b, left) && left != [] && s.stored.Some?
    ensures Run(w, s, [AckExit(ok)]) == Some(
      if ok then s.(worker := Busy(Head, b.(offset := left[0].end), left[1..]), mutex := Free,
                    stored := Some(WithProgress(s.stored.value, left[0].end, true)),
                    hist := s.hist + [Saved(b.id, b.offset)])
      else Stop(s).(mutex := Free))
  {
    RunOne(w, s, AckExit(ok));
  }

  /** The end of an attempt that was acknowledged: back to the top, or out. */
  lemma AckPath(w: World, s: Sup, p: PassState, left: seq<Rec>, fate: Fate) returns (ls: seq<Label>, t: Sup)
    requires At(s, Acking) && AtTop(Goto(s, Head), p, left) && left != [] && MayUpdate(p.stored, p.snap)
    ensures Run(w, s, ls) == Some(t)
    ensures if Progresses(p, fate)
      then Handled(s, t, Progressed(p, left[0], true), left[1..], true, [Saved(p.snap.id, p.snap.offset)])
      else Handled(s, t, p, left[1..], false, [])
  {
    NoEvents(s.hist);
    AckEnters(w, s, fate.loaded);
    ls, t := [AckEnter(fate.loaded)], DoAckEnter(s, fate.loaded).value;
    if fate.loaded {
      AckExits(w, t, p.snap, left, fate.saved);
      RunConcat(w, s, ls, [AckExit(fate.saved)]);
      ls, t := ls + [AckExit(fate.saved)], DoAckExit(t, fate.saved).value;
    }
  }

  /** The end of an attempt that failed: out, with the failure recorded if that is possible. */
  lemma FailPath(w: World, s: Sup, p: PassState, left: seq<Rec>, fate: Fate, f: Failure)
    returns (ls: seq<Label>, t: Sup)
    requires At(s, Failing(f)) && AtTop(Goto(s, Head), p, left) && MayUpdate(p.stored, p.snap) && f != BindingChanged
    ensures Run(w, s, ls) == Some(t)
    ensures Handled(s, t, FailedState(p, fate, f), left, false,
                    if Progresses(p, fate) && IsUnclassifiedSteer(f) then [Flagged(p.snap.id)] else [])
  {
    NoEvents(s.hist);
    RunOne(w, s, FailEnter(fate.loaded));
    ls, t := [FailEnter(fate.loaded)], DoFailEnter(s, fate.loaded).value;
    if fate.loaded {
      RunOne(w, t, FailExit(fate.saved));
      RunConcat(w, s, ls, [FailExit(fate.saved)]);
      ls, t := ls + [FailExit(fate.saved)], DoFailExit(t, fate.saved).value;
    }
  }

  lemma HandledAfter(s: Sup, u: Sup, t: Sup, p: Phase, first: seq<Event>, q: PassState, left: seq<Rec>, more: bool,
                     second: seq<Event>)
    requires s.worker.Busy? && Moved(Goto(s, Inspecting), u, p, first) && Handled(u, t, q, left, more, second)
    ensures Handled(s, t, q, left, more, first + second)
  {
    assert s.hist + first + second == s.hist + (first + second);
  }

  /** A delivery attempt and what is saved after it. */
  lemma AttemptedPath(w: World, s: Sup, p: PassState, left: seq<Rec>, fate: Fate, out: Outcome)
    returns (ls: seq<Label>, t: Sup)
    requires left != [] && AtTop(s, p, left) && MayDispatch(p.stored, p.snap, s.session)
    requires out == OutcomeOf(p.snap, fate)
    ensures Run(w, Goto(s, Inspecting), ls) == Some(t)
    ensures match out
      case Acknowledged(_, _) =>
        Handled(s, t, if Progresses(p, fate) then Progressed(p, left[0], true) else p, left[1..], Progresses(p, fate),
                AttemptedEvents(s.nick, fate, p))
      case Retained(f) => Handled(s, t, FailedState(p, fate, f), left[1..], false, AttemptedEvents(s.nick, fate, p))
  {
    var m, conn, thread := Goto(s, Inspecting), Conn(0, fate.frames, []), p.snap.route.thread;
    var first, u := DeliverIsAPath(w, m, conn, thread, fate.first, fate.second, out);
    NeverChanged(conn, thread, p.snap.noStart, fate.first, fate.second, out);
    var told := DeliverEvents(SubjectOf(m), conn, thread, p.snap.noStart, fate.first, fate.second);
    var second: seq<Label>;
    match out {
      case Acknowledged(_, _) =>
        second, t := AckPath(w, u, p, left, fate);
        HandledAfter(s, u, t, Acking, told, if Progresses(p, fate) then Progressed(p, left[0], true) else p, left[1..],
                     Progresses(p, fate), if Progresses(p, fate) then [Saved(p.snap.id, p.snap.offset)] else []);
      case Retained(f) =>
        second, t := FailPath(w, u, p, left, fate, f);
        HandledAfter(s, u, t, Failing(f), told, FailedState(p, fate, f), left[1..], false,
                     if Progresses(p, fate) && IsUnclassifiedSteer(f) then [Flagged(p.snap.id)] else []);
    }
    RunConcat(w, m, first, second);
    ls := first + second;
  }

  /** Handling one record, whatever goes wrong, is a path that leaves exactly its events. */
  lemma RecordPath(w: World, s: Sup, p: PassState, left: seq<Rec>, fate: Fate, q: PassState, more: bool)
    returns (ls: seq<Label>, t: Sup)
    requires left != [] && AtTop(s, p, left)
    requires (q, more) == PassStep(w, s.nick, s.session, left[0], fate, p)
    ensures Run(w, s, ls) == Some(t)
    ensures Handled(s, t, q, left[1..], more, RecordEvents(w, s.nick, s.session, left[0], fate, p))
  {
    if fate.cancelled {
      ls, t := LeavingIsAPath(w, s, p, left);
    } else if !w.addressed(left[0].msg, s.nick, p.snap.route) {
      ls, t := FilterPath(w, s, p, left, fate);
    } else {
      ls, t := LockPath(w, s, p, left, fate);
      if Dispatchable(p, s.session, left[0], fate) {
        var more2, u := AttemptedPath(w, s, p, left, fate, OutcomeOf(p.snap, fate));
        RunConcat(w, s, ls, more2);
        ls, t := ls + more2, u;
      } else {
        NoEvents(s.hist);
      }
    }
  }

  lemma PassUnfolds(w: World, nick: string, session: string, recs: seq<Rec>, k: nat, fates: nat -> Fate, p: PassState,
                    q: PassState, more: bool)
    requires k < |recs| && (q, more) == PassStep(w, nick, session, recs[k], fates(k), p)
    ensures Pass(w, nick, session, recs, k, fates, p)
         == if more then Pass(w, nick, session, recs, k + 1, fates, q) else q
    ensures PassEvents(w, nick, session, recs, k, fates, p)
         == RecordEvents(w, nick, session, recs[k], fates(k), p)
            + (if more then PassEvents(w, nick, session, recs, k + 1, fates, q) else [])
  {
  }

  lemma HandledOn(s: Sup, t: Sup, u: Sup, q: PassState, end: PassState, left: seq<Rec>, first: seq<Event>,
                  second: seq<Event>)
    requires Handled(s, t, q, left, true, first) && Handled(t, u, end, [], false, second)
    ensures Handled(s, u, end, [], false, first + second)
  {
    assert s.hist + first + second == s.hist + (first + second);
  }

  /** A pass, whatever goes wrong in it, is a run of the step system: the same stored binding at its
      end, exactly its events in the history, and everything else as it was. */
  lemma {:induction false} PassIsARun(w: World, s: Sup, recs: seq<Rec>, k: nat, fates: nat -> Fate, p: PassState,
                                      end: PassState, events: seq<Event>)
    returns (ls: seq<Label>, t: Sup)
    requires k <= |recs| && AtTop(s, p, recs[k..])
    requires end == Pass(w, s.nick, s.session, recs, k, fates, p)
    requires events == PassEvents(w, s.nick, s.session, recs, k, fates, p)
    ensures Run(w, s, ls) == Some(t) && Handled(s, t, end, [], false, events)
    decreases |recs| - k
  {
    if k == |recs| {
      ls, t := LeavingIsAPath(w, s, p, recs[k..]);
    } else {
      var (q, more) := PassStep(w, s.nick, s.session, recs[k], fates(k), p);
      PassUnfolds(w, s.nick, s.session, recs, k, fates, p, q, more);
      ls, t := FirstRecordPath(w, s, recs, k, fates(k), p, q, more);
      var first := RecordEvents(w, s.nick, s.session, recs[k], fates(k), p);
      if more {
        var second := PassEvents(w, s.nick, s.session, recs, k + 1, fates, q);
        var rest, u := PassIsARun(w, t, recs, k + 1, fates, q, end, second);
        RunConcat(w, s, ls, rest);
        HandledOn(s, t, u, q, end, recs[k + 1..], first, second);
        ls, t := ls + rest, u;
      } else {
        NoEvents(first);
      }
    }
  }

  lemma FirstRecordPath(w: World, s: Sup, recs: seq<Rec>, k: nat, fate: Fate, p: PassState, q: PassState, more: bool)
    returns (ls: seq<Label>, t: Sup)
    requires k < |recs| && AtTop(s, p, recs[k..]) && (q, more) == PassStep(w, s.nick, s.session, recs[k], fate, p)
    ensures Run(w, s, ls) == Some(t)
    ensures Handled(s, t, q, recs[k + 1..], more, RecordEvents(w, s.nick, s.session, recs[k], fate, p))
  {
    assert recs[k..][0] == recs[k] && recs[k..][1..] == recs[k + 1..];
    ls, t := RecordPath(w, s, p, recs[k..], fate, q, more);
  }

  /** With the binding current, an attempt never reports a changed binding. */
  lemma NeverChanged(c: Conn, thread: string, noStart: bool, first: SendFate, second: SendFate, out: Outcome)
    requires out == Deliver(c, thread, noStart, GateOf(true, first), GateOf(true, second)).1
    ensures out.Retained? ==> out.failure != BindingChanged
  {
    FirstLookIsHonest(c, thread);
    var choice, c1 := Decide(noStart, FirstLook(c, thread)), AfterFirstLook(c, thread);
    if choice.Send? {
      DeliverTries(c, thread, noStart, GateOf(true, first), GateOf(true, second));
      TryNeverChanged(c1, choice.dispatch, first);
      AgainNeverChanged(Try(c1, choice.dispatch, GateOf(true, first)).0, thread, second);
    } else {
      DeliverGivesUp(c, thread, noStart, GateOf(true, first), GateOf(true, second));
    }
  }

  lemma TryNeverChanged(c: Conn, d: Dispatch, f: SendFate)
    ensures var v := Try(c, d, GateOf(true, f)).1; v.Undelivered? ==> v.failure != BindingChanged
  {
    TryOutcomes(c, d, f);
  }

  lemma AgainNeverChanged(c: Conn, thread: string, f: SendFate)
    ensures var out := Again(c, thread, GateOf(true, f)).1; out.Retained? ==> out.failure != BindingChanged
  {
    LookIs(c, thread);
    RedecideIs(Look(c, thread).1);
    TryNeverChanged(Look(c, thread).0, StartStale, f);
  }

  // ----- what a pass reports is what was saved -----

  /** The messages of the saves in a history, in order. */
  function SavedMessages(log: Log, h: seq<Event>): seq<Msg> {
    if h == [] then [] else
    var before, e := SavedMessages(log, h[..|h| - 1]), h[|h| - 1];
    if e.Saved? && e.index < |log| && log[e.index].Line? then before + [log[e.index].msg] else before
  }

  lemma {:induction false} SavedConcat(log: Log, a: seq<Event>, b: seq<Event>)
    ensures SavedMessages(log, a + b) == SavedMessages(log, a) + SavedMessages(log, b)
  {
    if b == [] {
      assert a + b == a;
    } else {
      assert (a + b)[..|a + b| - 1] == a + b[..|b| - 1];
      SavedConcat(log, a, b[..|b| - 1]);
    }
  }

  lemma SavedOne(log: Log, e: Event)
    ensures SavedMessages(log, [e])
         == if e.Saved? && e.index < |log| && log[e.index].Line? then [log[e.index].msg] else []
  {
    assert [e][..0] == [];
  }

  lemma {:induction false} NoSaves(log: Log, h: seq<Event>)
    requires forall p :: 0 <= p < |h| ==> !h[p].Saved?
    ensures SavedMessages(log, h) == []
  {
    if h != [] { NoSaves(log, h[..|h| - 1]); }
  }

  lemma AttemptSavesNothing(sub: Subject, c: Conn, thread: string, noStart: bool, first: SendFate, second: SendFate)
    ensures forall e :: e in DeliverEvents(sub, c, thread, noStart, first, second) ==> !e.Saved? && !e.Flagged?
  {
    var writes, refused := DeliverTells(sub, c, thread, noStart, first, second);
    var out := Deliver(c, thread, noStart, GateOf(true, first), GateOf(true, second)).1;
    StorySavesNothing(sub, writes, first.taken || (out.Acknowledged? && |writes| == 1),
                      second.taken || out.Acknowledged?, refused, out.Acknowledged?);
  }

  lemma StorySavesNothing(sub: Subject, writes: seq<Sending>, taken: bool, takenAgain: bool, refused: bool, acked: bool)
    ensures forall e :: e in Story(sub, writes, taken, takenAgain, refused, acked) ==> !e.Saved? && !e.Flagged?
  {
  }

  lemma AttemptReports(nick: string, log: Log, fate: Fate, p: PassState, out: Outcome)
    requires out == OutcomeOf(p.snap, fate)
    ensures SavedMessages(log, AttemptedEvents(nick, fate, p)) == SavedMessages(log, Aftermath(fate, p, out))
  {
    var sub, conn := Subject(p.snap.id, p.snap.offset, nick), Conn(0, fate.frames, []);
    var told := DeliverEvents(sub, conn, p.snap.route.thread, p.snap.noStart, fate.first, fate.second);
    AttemptSavesNothing(sub, conn, p.snap.route.thread, p.snap.noStart, fate.first, fate.second);
    NoSaves(log, told);
    SavedConcat(log, told, Aftermath(fate, p, out));
  }

  lemma AftermathReports(log: Log, fate: Fate, p: PassState, out: Outcome, msg: Msg)
    requires p.snap.offset < |log| && log[p.snap.offset] == Line(msg)
    ensures SavedMessages(log, Aftermath(fate, p, out))
         == if out.Acknowledged? && Progresses(p, fate) then [msg] else []
  {
    SavedOne(log, Saved(p.snap.id, p.snap.offset));
    SavedOne(log, Flagged(p.snap.id));
  }

  /** One record adds its message to what is reported exactly if its save is in the history. */
  lemma RecordReports(w: World, nick: string, session: string, log: Log, rec: Rec, fate: Fate, p: PassState,
                      q: PassState)
    requires q == PassStep(w, nick, session, rec, fate, p).0
    requires p.snap.offset < |log| && log[p.snap.offset] == Line(rec.msg)
    ensures q.delivered == p.delivered + SavedMessages(log, RecordEvents(w, nick, session, rec, fate, p))
  {
    if !fate.cancelled && w.addressed(rec.msg, nick, p.snap.route) && Dispatchable(p, session, rec, fate) {
      AttemptReports(nick, log, fate, p, OutcomeOf(p.snap, fate));
      AftermathReports(log, fate, p, OutcomeOf(p.snap, fate), rec.msg);
    } else {
      SavedOne(log, Filtered(p.snap.id, p.snap.offset, nick));
    }
  }

  lemma ReportsAdd(log: Log, before: seq<Msg>, mid: seq<Msg>, end: seq<Msg>, first: seq<Event>, second: seq<Event>)
    requires mid == before + SavedMessages(log, first) && end == mid + SavedMessages(log, second)
    ensures end == before + SavedMessages(log, first + second)
  {
    SavedConcat(log, first, second);
  }

  /** The first of the records left, and what remains in the log after it. */
  lemma FirstReports(w: World, nick: string, session: string, log: Log, recs: seq<Rec>, k: nat, fate: Fate,
                     p: PassState, q: PassState, more: bool, first: seq<Event>)
    requires k < |recs| && InLog(log, p.snap.offset, recs[k..])
    requires (q, more) == PassStep(w, nick, session, recs[k], fate, p)
    requires first == RecordEvents(w, nick, session, recs[k], fate, p)
    ensures q.delivered == p.delivered + SavedMessages(log, first)
    ensures more ==> InLog(log, q.snap.offset, recs[k + 1..])
  {
    NextInLog(log, p.snap.offset, recs, k);
    RecordReports(w, nick, session, log, recs[k], fate, p, q);
    if more { Advances(w, nick, session, recs[k], fate, p, q); }
  }

  /** What a pass reports as delivered are the messages of its saves, in order. */
  lemma {:induction false} PassReports(w: World, nick: string, session: string, log: Log, recs: seq<Rec>, k: nat,
                                       fates: nat -> Fate, p: PassState, end: PassState, events: seq<Event>)
    requires k <= |recs| && InLog(log, p.snap.offset, recs[k..])
    requires end == Pass(w, nick, session, recs, k, fates, p)
    requires events == PassEvents(w, nick, session, recs, k, fates, p)
    ensures end.delivered == p.delivered + SavedMessages(log, events)
    decreases |recs| - k
  {
    if k < |recs| {
      var (q, more) := PassStep(w, nick, session, recs[k], fates(k), p);
      PassUnfolds(w, nick, session, recs, k, fates, p, q, more);
      var first := RecordEvents(w, nick, session, recs[k], fates(k), p);
      FirstReports(w, nick, session, log, recs, k, fates(k), p, q, more, first);
      if more {
        var second := PassEvents(w, nick, session, recs, k + 1, fates, q);
        PassReports(w, nick, session, log, recs, k + 1, fates, q, end, second);
        ReportsAdd(log, p.delivered, q.delivered, end.delivered, first, second);
      } else {
        NoEvents(first);
      }
    }
  }

  lemma Advances(w: World, nick: string, session: string, rec: Rec, fate: Fate, p: PassState, q: PassState)
    requires (q, true) == PassStep(w, nick, session, rec, fate, p)
    ensures q.snap.offset == rec.end
  {
  }

  lemma NextInLog(log: Log, at: nat, recs: seq<Rec>, k: nat)
    requires k < |recs| && InLog(log, at, recs[k..])
    ensures at < |log| && log[at] == Line(recs[k].msg)
    ensures recs[k].end == at + 1 && InLog(log, at + 1, recs[k + 1..])
  {
    assert recs[k..][0] == recs[k] && log[at + 0] == Line(recs[k..][0].msg);
    var left, rest := recs[k..], recs[k + 1..];
    forall i | 0 <= i < |rest| ensures log[(at + 1) + i] == Line(rest[i].msg) && rest[i].end == (at + 1) + i + 1 {
      assert left[i + 1] == rest[i];
      assert log[at + (i + 1)] == Line(left[i + 1].msg);
    }
  }

  // ----- a turn is a run -----

  ghost predicate Ended(s: Sup, t: Sup, stored: Option<Binding>, delivered: seq<Msg>, events: seq<Event>) {
    && t == s.(stored := stored, hist := s.hist + events)
    && delivered == SavedMessages(s.log, events)
  }

  lemma TurnEndsEarly(w: World, s: Sup, loaded: bool, readable: bool, fates: nat -> Fate)
    returns (ls: seq<Label>, events: seq<Event>)
    requires s.worker.Idle? && s.mutex == Free
    requires loaded && s.stored.Some? && s.stored.value.enabled && readable ==>
      s.stored.value.route.session != s.session
    ensures Run(w, s, ls) == Some(s) && events == []
    ensures var end := OneTurn(w, s.nick, s.session, s.log, s.stored, loaded, readable, fates);
      Ended(s, s, end.0, end.1, events)
  {
    events := [];
    NoEvents(s.hist);
    RunOne(w, s, Load(loaded));
    ls := [Load(loaded)];
    if loaded && s.stored.Some? && s.stored.value.enabled && s.stored.value.route.session == s.session {
      var m := DoLoad(s, loaded).value;
      RunOne(w, m, Read(false));
      RunConcat(w, s, ls, [Read(false)]);
      ls := ls + [Read(false)];
    }
  }

  /** A turn of the worker, from loading the binding on and whatever goes wrong in it, is a run of the
      step system. The stored binding is the turn's; what it reports are the messages of the saves it
      added to the history; and log, generations, requests and mutex are as they were. */
  lemma TurnIsARun(w: World, s: Sup, loaded: bool, readable: bool, fates: nat -> Fate)
    returns (ls: seq<Label>, t: Sup, events: seq<Event>)
    requires Inv(w, s) && s.worker.Idle? && s.mutex == Free
    ensures Run(w, s, ls) == Some(t)
    ensures var end := OneTurn(w, s.nick, s.session, s.log, s.stored, loaded, readable, fates);
      Ended(s, t, end.0, end.1, events)
  {
    if !loaded || s.stored.None? || !s.stored.value.enabled || s.stored.value.route.session != s.session || !readable {
      ls, events := TurnEndsEarly(w, s, loaded, readable, fates);
      t := s;
      return;
    }
    var b := s.stored.value;
    var recs, p := ReadRecords(s.log, b.offset), PassState(s.stored, b, []);
    var m := s.(worker := Busy(Loaded, b, []));
    RunOne(w, s, Load(true));
    RunOne(w, m, Read(true));
    RunConcat(w, s, [Load(true)], [Read(true)]);
    var top := DoRead(m, true).value;
    var end := Pass(w, s.nick, s.session, recs, 0, fates, p);
    assert recs[0..] == recs;
    ReadFromInLog(s.log, b.offset);
    events := PassEvents(w, s.nick, s.session, recs, 0, fates, p);
    PassReports(w, s.nick, s.session, s.log, recs, 0, fates, p, end, events);
    if recs == [] {
      NoEvents(s.hist);
      ls, t := [Load(true)] + [Read(true)], top;
    } else {
      var rest, u := PassIsARun(w, top, recs, 0, fates, p, end, events);
      RunConcat(w, s, [Load(true)] + [Read(true)], rest);
      ls, t := [Load(true)] + [Read(true)] + rest, u;
    }
  }

  /** So a turn taken in a reachable state ends in a reachable state, whose history is that of a run. */
  lemma TurnsStayReachable(w: World, start: Sup, before: seq<Label>, s: Sup, loaded: bool, readable: bool,
                           fates: nat -> Fate)
    returns (ls: seq<Label>, t: Sup, events: seq<Event>)
    requires Run(w, start, before) == Some(s) && Inv(w, start) && s.worker.Idle? && s.mutex == Free
    ensures Run(w, start, ls) == Some(t)
    ensures var end := OneTurn(w, s.nick, s.session, s.log, s.stored, loaded, readable, fates);
      Ended(s, t, end.0, end.1, events)
  {
    RunKeepsInv(w, start, before);
    var turn: seq<Label>;
    turn, t, events := TurnIsARun(w, s, loaded, readable, fates);
    RunConcat(w, start, before, turn);
    ls := before + turn;
  }

  // ----- control requests -----

  /** An unbind request is an entering and a leaving step of the system, and nothing else changes. */
  lemma UnbindIsTwoSteps(w: World, s: Sup, loaded: bool, saved: bool, t: Sup, u: Sup)
    requires s.mutex == Free && s.request == NoRequest
    requires Step(w, s, UnbindEnter(loaded)) == Some(t)
    requires u == if t.mutex == Free then t else Step(w, t, UnbindExit(saved)).value
    ensures u == s.(stored := Unbind(s.stored, loaded, saved).0)
  {
  }

  /** Nothing changed but the stored binding, and that together with a generation of its own. */
  ghost predicate Replaced(s: Sup, u: Sup, id: string) {
    && u == s.(stored := u.stored, gens := u.gens)
    && u.stored.Some? && u.stored.value.id == id
    && u.gens == s.gens[id := Gen(u.stored.value.offset, u.stored.value.route)]
  }

  lemma BindIsTwoStepsAfter(w: World, s: Sup, r: BindRequest, o: BindWorld, probe: Option<Failure>, t: Sup, u: Sup)
    requires s.mutex == Free && s.request == NoRequest && o.id !in s.gens
    requires Step(w, s, BindEnter(r, o.loaded, o.sized)) == Some(t)
    requires u == if t.mutex == Free then t else Step(w, t, BindExit(o.id, probe, o.saved)).value
    ensures u.stored == BindAfter(w, s.session, s.stored, |s.log|, r, o, probe).0
    ensures u == s || Replaced(s, u, o.id)
  {
  }

  /** A bind request is two steps of the system, one on each side of its probe: either nothing changes,
      or the stored binding is replaced and its generation begins. */
  lemma BindIsTwoSteps(w: World, s: Sup, r: BindRequest, o: BindWorld, t: Sup, u: Sup)
    requires s.mutex == Free && s.request == NoRequest && o.id !in s.gens
    requires Step(w, s, BindEnter(r, o.loaded, o.sized)) == Some(t)
    requires u == if t.mutex == Free then t
                  else Step(w, t, BindExit(o.id, Probe(Conn(0, o.frames, []), r.thread).1, o.saved)).value
    ensures u.stored == Bind(w, s.session, s.stored, |s.log|, r, o).0
    ensures u == s || Replaced(s, u, o.id)
  {
    BindIsTwoStepsAfter(w, s, r, o, Probe(Conn(0, o.frames, []), r.thread).1, t, u);
  }

  /** With an enabled binding in place, a reuse request never writes: it returns that very binding,
      or says what differs, or says the thread is unavailable. */
  lemma ReuseNeverWrites(w: World, session: string, b: Binding, size: nat, r: BindRequest, o: BindWorld)
    requires r.reuse && b.enabled
    ensures var (stored, response) := Bind(w, session, Some(b), size, r, o);
      && stored == Some(b)
      && (response.Bound? ==> response.b == b && SameRoute(w.canon, b.route,
            Route(session, r.endpoint, r.thread, r.mention, Normalized(w.canon, r.channels).GetOr([]))))
      && (response.Conflicting? ==> response.differences != [])
  {
    if Normalized(w.canon, r.channels).Some? {
      ConflictNamesDifferences(w.canon, b.route,
        Route(session, r.endpoint, r.thread, r.mention, Normalized(w.canon, r.channels).value));
    }
  }
}
