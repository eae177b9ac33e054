/** What every step of the delivery protocol keeps: the mutex, the worker's copy of the binding,
    the records in hand, and how the phase of a pass agrees with the end of the history. */
module DeliveryInvariant {
  import opened Prelude
  import opened Messages
  import opened AppClient
  import opened Bindings
  import opened Subscriptions
  import opened Delivery

  // ----- mutual exclusion and the worker's copy of the binding -----

  ghost predicate UnderMutex(p: Phase) { p.Filtering? || p.Authorized? || p.SavingFailure? || p.SavingAck? }

  ghost predicate Excluded(s: Sup) {
    && (s.mutex == ByWorker <==> s.worker.Busy? && UnderMutex(s.worker.phase))
    && (s.mutex == ByRequest <==> s.request != NoRequest)
  }

  ghost predicate StoredKnown(s: Sup) {
    s.stored.Some? ==>
      var b := s.stored.value;
      b.id in s.gens && s.gens[b.id].route == b.route && s.gens[b.id].start <= b.offset <= |s.log|
  }

  ghost predicate RequestKnown(s: Sup) {
    && (s.request.Unbinding? ==> s.stored == Some(s.request.loaded))
    && (s.request.Probing? ==> s.request.start <= |s.log|)
  }

  /** While the stored binding is the pass's own, the pass has its cursor and at least its caution. */
  ghost predicate SnapKnown(s: Sup) {
    s.worker.Busy? ==>
      var snap := s.worker.snap;
      && snap.enabled && snap.id in s.gens && s.gens[snap.id].route == snap.route && snap.offset <= |s.log|
      && (UnderMutex(s.worker.phase) ==> MayUpdate(s.stored, snap))
      && (s.worker.phase.Authorized? ==> MayDispatch(s.stored, snap, s.session))
      && (MayUpdate(s.stored, snap) ==>
            s.stored.value.offset == snap.offset && (s.stored.value.noStart ==> snap.noStart))
  }

  // ----- the records in hand -----

  ghost predicate InLog(log: Log, at: nat, batch: seq<Rec>) {
    at + |batch| <= |log|
    && forall i :: 0 <= i < |batch| ==> log[at + i] == Line(batch[i].msg) && batch[i].end == at + i + 1
  }

  lemma {:induction false} ReadFromInLog(log: Log, at: nat)
    requires at <= |log|
    ensures InLog(log, at, ReadFrom(log, at))
    decreases |log| - at
  {
    if at < |log| && log[at].Line? {
      ReadFromInLog(log, at + 1);
      var rest := ReadFrom(log, at + 1);
      forall i | 1 <= i < |ReadFrom(log, at)|
        ensures log[at + i] == Line(ReadFrom(log, at)[i].msg) && ReadFrom(log, at)[i].end == at + i + 1
      {
        assert ReadFrom(log, at)[i] == rest[i - 1];
        assert log[(at + 1) + (i - 1)] == Line(rest[i - 1].msg);
      }
    }
  }

  ghost predicate InHand(w: World, s: Sup) {
    s.worker.Busy? ==>
      && InLog(s.log, s.worker.snap.offset, s.worker.batch)
      && (!s.worker.phase.Loaded? && !s.worker.phase.Head? ==>
            HasRecord(s) && (s.worker.phase.Filtering? <==> !HeadAddressed(w, s)))
  }

  // ----- the end of the history -----

  ghost predicate EndsWith(hist: seq<Event>, e: Event) { hist != [] && hist[|hist| - 1] == e }

  ghost predicate EndsWithSteer(hist: seq<Event>, gen: string, index: nat) {
    hist != [] && var e := hist[|hist| - 1]; e.Sent? && e.gen == gen && e.index == index && e.d.Steer?
  }

  ghost predicate Trail(s: Sup) {
    s.worker.Busy? ==>
      var id, at := s.worker.snap.id, s.worker.snap.offset;
      match s.worker.phase
      case Authorizing(StartIdle) => !s.worker.snap.noStart
      case Authorized(StartIdle) => !s.worker.snap.noStart
      case Authorizing(StartStale) => EndsWith(s.hist, SteerRefused(id, at))
      case Authorized(StartStale) => EndsWith(s.hist, SteerRefused(id, at))
      case Rechecking => EndsWith(s.hist, SteerRefused(id, at))
      case Awaiting(d, accepted) => EndsWith(s.hist, Sent(id, at, s.nick, d, accepted))
      case Failing(f) => SteerFailed(f) ==> EndsWithSteer(s.hist, id, at)
      case SavingFailure(f) => SteerFailed(f) ==> EndsWithSteer(s.hist, id, at)
      case Acking => EndsWith(s.hist, Acked(id, at))
      case SavingAck => EndsWith(s.hist, Acked(id, at))
      case _ => true
  }

  ghost predicate Local(w: World, s: Sup) {
    Excluded(s) && StoredKnown(s) && RequestKnown(s) && SnapKnown(s) && InHand(w, s) && Trail(s)
  }

  lemma AppendKeeps(w: World, s: Sup, entry: Entry<Msg>)
    requires Local(w, s)
    ensures Local(w, DoAppend(s, entry))
  {
  }

  lemma CrashKeeps(w: World, s: Sup, session: string, nick: string)
    requires Local(w, s)
    ensures Local(w, DoCrash(s, session, nick))
  {
  }

  lemma LoadKeeps(w: World, s: Sup, ok: bool)
    requires Local(w, s) && DoLoad(s, ok).Some?
    ensures Local(w, DoLoad(s, ok).value)
  {
  }

  lemma ReadKeeps(w: World, s: Sup, ok: bool)
    requires Local(w, s) && DoRead(s, ok).Some?
    ensures Local(w, DoRead(s, ok).value)
  {
    ReadFromInLog(s.log, s.worker.snap.offset);
  }

  lemma LeaveKeeps(w: World, s: Sup)
    requires Local(w, s) && DoLeave(s).Some?
    ensures Local(w, DoLeave(s).value)
  {
  }

  lemma FilterEnterKeeps(w: World, s: Sup, ok: bool)
    requires Local(w, s) && DoFilterEnter(w, s, ok).Some?
    ensures Local(w, DoFilterEnter(w, s, ok).value)
  {
  }

  lemma FilterExitKeeps(w: World, s: Sup, ok: bool)
    requires Local(w, s) && DoFilterExit(s, ok).Some?
    ensures Local(w, DoFilterExit(s, ok).value)
  {
  }

  lemma LockThreadKeeps(w: World, s: Sup, ok: bool)
    requires Local(w, s) && DoLockThread(w, s, ok).Some?
    ensures Local(w, DoLockThread(w, s, ok).value)
  {
  }

  lemma CheckCurrentKeeps(w: World, s: Sup, ok: bool)
    requires Local(w, s) && DoCheckCurrent(s, ok).Some?
    ensures Local(w, DoCheckCurrent(s, ok).value)
  {
  }

  /** The phases in which a look at the thread decides what comes next. */
  predicate Looking(p: Phase) { p.Inspecting? || p.Rechecking? }

  lemma SendKeeps(w: World, s: Sup, d: Dispatch)
    requires Local(w, s) && s.worker.Busy? && Looking(s.worker.phase)
    requires d.StartIdle? ==> !s.worker.snap.noStart
    requires d.StartStale? ==> s.worker.phase.Rechecking?
    ensures Local(w, Goto(s, Authorizing(d)))
  {
  }

  lemma GiveUpKeeps(w: World, s: Sup, f: Failure)
    requires Local(w, s) && s.worker.Busy? && Looking(s.worker.phase) && !SteerFailed(f)
    ensures Local(w, Goto(s, Failing(f)))
  {
  }

  lemma DecisionsAreJustified(noStart: bool, seen: Inspection)
    requires Honest(seen)
    ensures Decide(noStart, seen) == Send(StartIdle) ==> !noStart
    ensures Decide(noStart, seen).Send? ==> !Decide(noStart, seen).dispatch.StartStale?
    ensures Decide(noStart, seen).GiveUp? ==> !SteerFailed(Decide(noStart, seen).failure)
    ensures Redecide(seen).Send? ==> Redecide(seen).dispatch.StartStale?
    ensures Redecide(seen).GiveUp? ==> !SteerFailed(Redecide(seen).failure)
  {
  }

  lemma InspectKeeps(w: World, s: Sup, seen: Inspection)
    requires Local(w, s) && DoInspect(s, seen).Some?
    ensures Local(w, DoInspect(s, seen).value)
  {
    DecisionsAreJustified(s.worker.snap.noStart, seen);
    match Decide(s.worker.snap.noStart, seen)
    case Send(d) => SendKeeps(w, s, d);
    case GiveUp(f) => GiveUpKeeps(w, s, f);
  }

  lemma AuthorizeKeeps(w: World, s: Sup, ok: bool)
    requires Local(w, s) && DoAuthorize(s, ok).Some?
    ensures Local(w, DoAuthorize(s, ok).value)
  {
  }

  lemma DispatchedKeeps(w: World, s: Sup, written: bool, accepted: bool)
    requires Local(w, s) && DoDispatched(s, written, accepted).Some?
    ensures Local(w, DoDispatched(s, written, accepted).value)
  {
  }

  lemma ConcludeKeeps(w: World, s: Sup, v: Verdict)
    requires Local(w, s) && s.worker.Busy? && s.worker.phase.Awaiting?
    requires v.Recheck? || (v.Undelivered? && SteerFailed(v.failure)) ==> s.worker.phase.d.Steer?
    ensures Local(w, Conclude(s, v))
  {
  }

  lemma AnswerKeeps(w: World, s: Sup, reply: Reply)
    requires Local(w, s) && DoAnswer(s, reply).Some?
    ensures Local(w, DoAnswer(s, reply).value)
  {
    var v := Judge(s.worker.phase.d, reply);
    JudgeIs(s.worker.phase.d, reply);
    ConcludeKeeps(w, s, v);
  }

  lemma ReinspectKeeps(w: World, s: Sup, seen: Inspection)
    requires Local(w, s) && DoReinspect(s, seen).Some?
    ensures Local(w, DoReinspect(s, seen).value)
  {
    DecisionsAreJustified(s.worker.snap.noStart, seen);
    match Redecide(seen)
    case Send(d) => SendKeeps(w, s, d);
    case GiveUp(f) => GiveUpKeeps(w, s, f);
  }

  lemma FailEnterKeeps(w: World, s: Sup, ok: bool)
    requires Local(w, s) && DoFailEnter(s, ok).Some?
    ensures Local(w, DoFailEnter(s, ok).value)
  {
  }

  lemma FailExitKeeps(w: World, s: Sup, ok: bool)
    requires Local(w, s) && DoFailExit(s, ok).Some?
    ensures Local(w, DoFailExit(s, ok).value)
  {
  }

  lemma AckEnterKeeps(w: World, s: Sup, ok: bool)
    requires Local(w, s) && DoAckEnter(s, ok).Some?
    ensures Local(w, DoAckEnter(s, ok).value)
  {
  }

  lemma AckExitKeeps(w: World, s: Sup, ok: bool)
    requires Local(w, s) && DoAckExit(s, ok).Some?
    ensures Local(w, DoAckExit(s, ok).value)
  {
  }

  lemma UnbindEnterKeeps(w: World, s: Sup, ok: bool)
    requires Local(w, s) && DoUnbindEnter(s, ok).Some?
    ensures Local(w, DoUnbindEnter(s, ok).value)
  {
  }

  lemma UnbindExitKeeps(w: World, s: Sup, ok: bool)
    requires Local(w, s) && DoUnbindExit(s, ok).Some?
    ensures Local(w, DoUnbindExit(s, ok).value)
  {
  }

  lemma BindEnterKeeps(w: World, s: Sup, r: BindRequest, loaded: bool, sized: bool)
    requires Local(w, s) && DoBindEnter(w, s, r, loaded, sized).Some?
    ensures Local(w, DoBindEnter(w, s, r, loaded, sized).value)
  {
  }

  lemma BindExitKeeps(w: World, s: Sup, id: string, probe: Option<Failure>, ok: bool)
    requires Local(w, s) && DoBindExit(s, id, probe, ok).Some?
    ensures Local(w, DoBindExit(s, id, probe, ok).value)
  {
  }
}
