/** The delivery protocol of one supervisor as a step system.

    State is what outlives a step: the log, the stored binding, the binding mutex, the request and
    the worker pass in progress, and a history of what was dispatched, answered and persisted.
    Every choice the code does not make (what the server says, whether a file operation succeeds,
    who runs next, when the process dies) is in the label. A section under the mutex is two steps,
    one that locks, loads and checks and one that acts and unlocks, so that anything may happen in
    between that the mutex does not exclude. Cursors count log entries; LogFiles shows that they
    are byte offsets of the log file. */
module Delivery {
  import opened Prelude
  import opened Messages
  import opened AppClient
  import opened Bindings
  import opened Subscriptions

  /** The parts of the program that are parameters here: channel spelling and message addressing. */
  datatype World = World(canon: string -> string, addressed: (Msg, string, Route) -> bool)

  type Log = seq<Entry<Msg>>

  datatype Rec = Rec(msg: Msg, end: nat)

  /** The strict reader: complete messages from `at` up to the first line that does not decode. */
  function ReadFrom(log: Log, at: nat): seq<Rec>
    decreases |log| - at
  {
    if at < |log| && log[at].Line? then [Rec(log[at].msg, at + 1)] + ReadFrom(log, at + 1) else []
  }

  function ReadRecords(log: Log, offset: nat): seq<Rec> {
    ReadFrom(log, if |log| < offset then 0 else offset)
  }

  datatype Mutex = Free | ByWorker | ByRequest

  datatype Request =
    | NoRequest
    | Unbinding(loaded: Binding)
    | Reusing
    | Probing(route: Route, start: nat, replay: bool, requireAvailable: bool)

  datatype Phase =
    | Loaded | Head | Filtering
    | Locked | Inspecting | Authorizing(d: Dispatch) | Authorized(d: Dispatch)
    | Awaiting(d: Dispatch, accepted: bool) | Rechecking
    | Failing(f: Failure) | SavingFailure(f: Failure)
    | Acking | SavingAck

  /** A worker pass keeps its own copy of the binding and the records it has yet to handle. */
  datatype Worker = Idle | Busy(phase: Phase, snap: Binding, batch: seq<Rec>)

  /** `index` is the log position of the record, `nick` the name it was judged under, and `accepted`
      says whether the thread took the text. */
  datatype Event =
    | Sent(gen: string, index: nat, nick: string, d: Dispatch, accepted: bool)
    | SteerRefused(gen: string, index: nat)
    | Acked(gen: string, index: nat)
    | Saved(gen: string, index: nat)
    | Filtered(gen: string, index: nat, nick: string)
    | Flagged(gen: string)

  datatype Gen = Gen(start: nat, route: Route)

  datatype Sup = Sup(
    nick: string, session: string, log: Log, stored: Option<Binding>,
    mutex: Mutex, request: Request, worker: Worker,
    gens: map<string, Gen>, hist: seq<Event>)

  datatype Label =
    | Append(entry: Entry<Msg>)
    | Crash(session: string, nick: string)
    | Load(ok: bool) | Read(ok: bool) | Leave
    | FilterEnter(ok: bool) | FilterExit(ok: bool)
    | LockThread(ok: bool) | CheckCurrent(ok: bool)
    | Inspect(seen: Inspection) | Authorize(ok: bool) | Dispatched(written: bool, accepted: bool)
    | Answer(reply: Reply) | Reinspect(seen: Inspection)
    | FailEnter(ok: bool) | FailExit(ok: bool) | AckEnter(ok: bool) | AckExit(ok: bool)
    | UnbindEnter(ok: bool) | UnbindExit(ok: bool)
    | BindEnter(r: BindRequest, loaded: bool, sized: bool)
    | BindExit(id: string, probe: Option<Failure>, ok: bool)

  predicate At(s: Sup, p: Phase) { s.worker.Busy? && s.worker.phase == p }

  predicate HasRecord(s: Sup) { s.worker.Busy? && s.worker.batch != [] }

  /** The record the pass is handling is one this generation delivers. */
  predicate HeadAddressed(w: World, s: Sup)
    requires HasRecord(s)
  {
    w.addressed(s.worker.batch[0].msg, s.nick, s.worker.snap.route)
  }

  function Goto(s: Sup, p: Phase): Sup
    requires s.worker.Busy?
  {
    s.(worker := s.worker.(phase := p))
  }

  /** The rest of the pass once the head record is behind the cursor. */
  function Advance(s: Sup): Sup
    requires HasRecord(s)
  {
    var end := s.worker.batch[0].end;
    s.(worker := Busy(Head, s.worker.snap.(offset := end), s.worker.batch[1..]))
  }

  function Stop(s: Sup): Sup { s.(worker := Idle) }

  function Note(s: Sup, e: Event): Sup { s.(hist := s.hist + [e]) }

  // ----- the log and the process -----

  function DoAppend(s: Sup, entry: Entry<Msg>): Sup { s.(log := s.log + [entry]) }

  /** The process dies or is stopped, and the next one takes over, perhaps under another name. */
  function DoCrash(s: Sup, session: string, nick: string): Sup {
    s.(session := session, nick := nick, mutex := Free, request := NoRequest, worker := Idle)
  }

  // ----- the worker pass -----

  function DoLoad(s: Sup, ok: bool): Option<Sup> {
    if !s.worker.Idle? || s.mutex != Free then None
    else if !ok || s.stored.None? || !s.stored.value.enabled || s.stored.value.route.session != s.session then Some(s)
    else Some(s.(worker := Busy(Loaded, s.stored.value, [])))
  }

  function DoRead(s: Sup, ok: bool): Option<Sup> {
    if !At(s, Loaded) then None else
    var batch := if ok then ReadRecords(s.log, s.worker.snap.offset) else [];
    if batch == [] then Some(Stop(s)) else Some(s.(worker := Busy(Head, s.worker.snap, batch)))
  }

  /** The loop ends, stops in front of a message without an event id, or is cancelled. */
  function DoLeave(s: Sup): Option<Sup> {
    if At(s, Head) then Some(Stop(s)) else None
  }

  function DoFilterEnter(w: World, s: Sup, ok: bool): Option<Sup> {
    if !At(s, Head) || !HasRecord(s) || HeadAddressed(w, s) || s.mutex != Free then None
    else if ok && MayUpdate(s.stored, s.worker.snap) then Some(Goto(s, Filtering).(mutex := ByWorker))
    else Some(Stop(s))
  }

  function DoFilterExit(s: Sup, ok: bool): Option<Sup> {
    if !At(s, Filtering) || !HasRecord(s) || s.stored.None? then None
    else if !ok then Some(Stop(s).(mutex := Free))
    else
      var next := WithProgress(s.stored.value, s.worker.batch[0].end, false);
      var noted := Note(s, Filtered(s.worker.snap.id, s.worker.snap.offset, s.nick));
      Some(Advance(noted).(mutex := Free, stored := Some(next)))
  }

  function DoLockThread(w: World, s: Sup, ok: bool): Option<Sup> {
    if !At(s, Head) || !HasRecord(s) || !HeadAddressed(w, s) || s.worker.batch[0].msg.eventId == "" then None
    else if ok then Some(Goto(s, Locked)) else Some(Stop(s))
  }

  function DoCheckCurrent(s: Sup, ok: bool): Option<Sup> {
    if !At(s, Locked) || s.mutex != Free then None
    else if ok && MayDispatch(s.stored, s.worker.snap, s.session) then Some(Goto(s, Inspecting))
    else Some(Stop(s))
  }

  function Follow(s: Sup, d: Decision): Sup
    requires s.worker.Busy?
  {
    match d
    case Send(dispatch) => Goto(s, Authorizing(dispatch))
    case GiveUp(f) => Goto(s, Failing(f))
  }

  function DoInspect(s: Sup, seen: Inspection): Option<Sup> {
    if !At(s, Inspecting) || !Honest(seen) then None
    else Some(Follow(s, Decide(s.worker.snap.noStart, seen)))
  }

  function DoAuthorize(s: Sup, ok: bool): Option<Sup> {
    if !s.worker.Busy? || !s.worker.phase.Authorizing? || s.mutex != Free then None
    else if !ok then Some(Goto(s, Failing(Broken)))
    else if !MayDispatch(s.stored, s.worker.snap, s.session) then Some(Stop(s))
    else Some(Goto(s, Authorized(s.worker.phase.d)).(mutex := ByWorker))
  }

  /** The request goes out while the mutex is still held; even a failed write may have arrived. */
  function DoDispatched(s: Sup, written: bool, accepted: bool): Option<Sup> {
    if !s.worker.Busy? || !s.worker.phase.Authorized? then None else
    var d := s.worker.phase.d;
    var sent := Note(s, Sent(s.worker.snap.id, s.worker.snap.offset, s.nick, d, accepted)).(mutex := Free);
    Some(Goto(sent, if written then Awaiting(d, accepted) else Failing(Broken)))
  }

  function Conclude(s: Sup, v: Verdict): Sup
    requires s.worker.Busy?
  {
    match v
    case Delivered(_) => Goto(Note(s, Acked(s.worker.snap.id, s.worker.snap.offset)), Acking)
    case Recheck => Goto(Note(s, SteerRefused(s.worker.snap.id, s.worker.snap.offset)), Rechecking)
    case Undelivered(f) => Goto(s, Failing(f))
  }

  /** The one thing the server is trusted with: it names a turn only for text it accepted. */
  function DoAnswer(s: Sup, reply: Reply): Option<Sup> {
    if !s.worker.Busy? || !s.worker.phase.Awaiting? then None
    else if reply.Ack? && reply.turn != "" && !s.worker.phase.accepted then None
    else Some(Conclude(s, Judge(s.worker.phase.d, reply)))
  }

  function DoReinspect(s: Sup, seen: Inspection): Option<Sup> {
    if !At(s, Rechecking) || !Honest(seen) then None else Some(Follow(s, Redecide(seen)))
  }

  function DoFailEnter(s: Sup, ok: bool): Option<Sup> {
    if !s.worker.Busy? || !s.worker.phase.Failing? || s.mutex != Free then None
    else if ok && MayUpdate(s.stored, s.worker.snap)
    then Some(Goto(s, SavingFailure(s.worker.phase.f)).(mutex := ByWorker))
    else Some(Stop(s))
  }

  function DoFailExit(s: Sup, ok: bool): Option<Sup> {
    if !s.worker.Busy? || !s.worker.phase.SavingFailure? || s.stored.None? then None
    else if !ok then Some(Stop(s).(mutex := Free))
    else
      var f := s.worker.phase.f;
      var saved := Stop(s).(mutex := Free, stored := Some(WithFailure(s.stored.value, f)));
      Some(if IsUnclassifiedSteer(f) then Note(saved, Flagged(s.worker.snap.id)) else saved)
  }

  function DoAckEnter(s: Sup, ok: bool): Option<Sup> {
    if !At(s, Acking) || s.mutex != Free then None
    else if ok && MayUpdate(s.stored, s.worker.snap) then Some(Goto(s, SavingAck).(mutex := ByWorker))
    else Some(Stop(s))
  }

  function DoAckExit(s: Sup, ok: bool): Option<Sup> {
    if !At(s, SavingAck) || !HasRecord(s) || s.stored.None? then None
    else if !ok then Some(Stop(s).(mutex := Free))
    else
      var next := WithProgress(s.stored.value, s.worker.batch[0].end, true);
      var noted := Note(s, Saved(s.worker.snap.id, s.worker.snap.offset));
      Some(Advance(noted).(mutex := Free, stored := Some(next)))
  }

  // ----- control requests -----

  function DoUnbindEnter(s: Sup, ok: bool): Option<Sup> {
    if s.mutex != Free then None
    else if !ok || s.stored.None? then Some(s)
    else Some(s.(mutex := ByRequest, request := Unbinding(s.stored.value)))
  }

  function DoUnbindExit(s: Sup, ok: bool): Option<Sup> {
    if !s.request.Unbinding? then None else
    var done := s.(mutex := Free, request := NoRequest);
    Some(if ok then done.(stored := Some(s.request.loaded.(enabled := false))) else done)
  }

  function DoBindEnter(w: World, s: Sup, r: BindRequest, loaded: bool, sized: bool): Option<Sup> {
    if s.mutex != Free then None else
    match Plan(w.canon, r, s.session, s.stored, loaded)
    case Reject => Some(s)
    case Conflict(_) => Some(s)
    case Reuse(_) => Some(s.(mutex := ByRequest, request := Reusing))
    case Fresh(route) =>
      if !r.replay && !sized then Some(s)
      else Some(s.(mutex := ByRequest,
                   request := Probing(route, if r.replay then 0 else |s.log|, r.replay, r.requireAvailable)))
  }

  /** A new generation takes over, unless the thread had to be available and is not. */
  function DoBindExit(s: Sup, id: string, probe: Option<Failure>, ok: bool): Option<Sup> {
    var done := s.(mutex := Free, request := NoRequest);
    match s.request
    case Reusing => Some(done)
    case Probing(route, start, replay, requireAvailable) =>
      var b := NewBinding(id, route, start, replay, probe);
      if id in s.gens then None
      else if (probe.Some? && requireAvailable) || !ok || !Valid(b) then Some(done)
      else Some(done.(stored := Some(b), gens := s.gens[id := Gen(start, route)]))
    case _ => None
  }

  function Step(w: World, s: Sup, l: Label): Option<Sup> {
    match l
    case Append(entry) => Some(DoAppend(s, entry))
    case Crash(session, nick) => Some(DoCrash(s, session, nick))
    case Load(ok) => DoLoad(s, ok)
    case Read(ok) => DoRead(s, ok)
    case Leave => DoLeave(s)
    case FilterEnter(ok) => DoFilterEnter(w, s, ok)
    case FilterExit(ok) => DoFilterExit(s, ok)
    case LockThread(ok) => DoLockThread(w, s, ok)
    case CheckCurrent(ok) => DoCheckCurrent(s, ok)
    case Inspect(seen) => DoInspect(s, seen)
    case Authorize(ok) => DoAuthorize(s, ok)
    case Dispatched(written, accepted) => DoDispatched(s, written, accepted)
    case Answer(reply) => DoAnswer(s, reply)
    case Reinspect(seen) => DoReinspect(s, seen)
    case FailEnter(ok) => DoFailEnter(s, ok)
    case FailExit(ok) => DoFailExit(s, ok)
    case AckEnter(ok) => DoAckEnter(s, ok)
    case AckExit(ok) => DoAckExit(s, ok)
    case UnbindEnter(ok) => DoUnbindEnter(s, ok)
    case UnbindExit(ok) => DoUnbindExit(s, ok)
    case BindEnter(r, loaded, sized) => DoBindEnter(w, s, r, loaded, sized)
    case BindExit(id, probe, ok) => DoBindExit(s, id, probe, ok)
  }

  /** A home with a log but no binding yet. */
  function Start(nick: string, session: string, log: Log): Sup {
    Sup(nick, session, log, None, Free, NoRequest, Idle, map[], [])
  }

  /** The state after a run, or None if some label was not enabled when its turn came. */
  function Run(w: World, s: Sup, ls: seq<Label>): Option<Sup> {
    if ls == [] then Some(s) else
    var before := Run(w, s, ls[..|ls| - 1]);
    if before.None? then None else Step(w, before.value, ls[|ls| - 1])
  }
}
