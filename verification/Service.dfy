/** The single-instance app-server manager. Any number of ensure calls on one service home run step
    by step; processes may die at any moment; probes, file operations and timeouts go either way.
    ps may fail at any moment, and a process is then taken for dead; that is what `answers` and `ok` say
    of a step. Assumed: what ps does say is true, and kill works; a process identity (pid with start
    time) is never reused; and no caller is killed midway. */
module Service {
  import opened Prelude

  type Proc = nat

  datatype Identity = Identity(home: string, family: string, os: string)

  datatype Record = Record(proc: Proc, endpoint: string, identity: Identity, version: string)

  /** The record file: absent, unreadable or malformed, or a record. */
  datatype RecordFile = Absent | Invalid | Holds(record: Record)

  datatype Reply = Failed | Healthy(recorded: Option<Proc>, identity: Identity) | Started(proc: Proc)

  datatype Phase =
    | Waiting
    | Entered
    | HasRecord(record: Option<Record>)
    | Clear                       // no recorded process has been seen alive; preparing to start one
    | Spawned(proc: Proc)
    | Polling(proc: Proc)
    | Stopping(proc: Proc)
    | Terminated(proc: Proc)
    | Leaving(reply: Reply, spawned: Option<Proc>)
    | Done(reply: Reply)

  /** `alive` maps each living server to the endpoint on its command line; `started` collects every
      server any call has started. */
  datatype Home = Home(
    endpoint: string, alive: map<Proc, string>, started: set<Proc>, file: RecordFile,
    lock: Option<nat>, calls: seq<Phase>)

  datatype Label =
    | Dies(proc: Proc)
    | Arrives
    | Enter | GiveUpWaiting
    | ReadRecord
    | Probe(found: Option<Identity>, matched: bool, answers: bool)
    | Prepare(ok: bool)
    | Spawn(proc: Proc, ok: bool)
    | Fingerprint(ok: bool)
    | Poll(found: Option<Identity>, version: string, written: bool, answers: bool)
    | GiveUpPolling
    | Terminate(dies: bool, answers: bool)
    | Kill(answers: bool)
    | Leave

  /** processMatches on a recorded process, when ps answers. */
  predicate Matches(h: Home, r: Record) { r.proc in h.alive && h.alive[r.proc] == r.endpoint }

  function With(h: Home, k: nat, p: Phase): Home
    requires k < |h.calls|
  {
    h.(calls := h.calls[k := p])
  }

  function Exit(reply: Reply): Phase { Leaving(reply, None) }

  /** A healthy endpoint is reused if it is the recorded one, or nothing is recorded; never doubled. */
  function Reuse(h: Home, record: Option<Record>, found: Identity, matched: bool): Phase {
    match record
    case None => Exit(Healthy(None, found))
    case Some(r) =>
      if r.endpoint != h.endpoint || !matched || r.identity != found then Exit(Failed)
      else Exit(Healthy(Some(r.proc), found))
  }

  function CallStep(h: Home, k: nat, l: Label): Option<Home>
    requires k < |h.calls|
  {
    match (h.calls[k], l)
    case (Waiting, Enter) => if h.lock.Some? then None else Some(With(h, k, Entered).(lock := Some(k)))
    case (Waiting, GiveUpWaiting) => Some(With(h, k, Done(Failed)))
    case (Entered, ReadRecord) =>
      (match h.file
       case Absent => Some(With(h, k, HasRecord(None)))
       case Invalid => Some(With(h, k, Exit(Failed)))
       case Holds(r) => Some(With(h, k, HasRecord(Some(r)))))
    case (HasRecord(record), Probe(found, matched, answers)) =>
      if found.Some? then Some(With(h, k, Reuse(h, record, found.value, matched)))
      else if record.Some? && answers && Matches(h, record.value) then Some(With(h, k, Exit(Failed)))
      else Some(With(h, k, Clear))
    case (Clear, Prepare(ok)) => if ok then Some(h) else Some(With(h, k, Exit(Failed)))
    case (Clear, Spawn(proc, ok)) =>
      if !ok then Some(With(h, k, Exit(Failed)))
      else if proc in h.alive || proc in h.started || (h.file.Holds? && h.file.record.proc == proc) then None
      else Some(With(h, k, Spawned(proc)).(alive := h.alive[proc := h.endpoint], started := h.started + {proc}))
    case (Spawned(proc), Fingerprint(ok)) =>
      // without a start time the server cannot be identified, so it is not stopped either
      Some(With(h, k, if ok then Polling(proc) else Leaving(Failed, Some(proc))))
    case (Polling(proc), Poll(found, version, written, answers)) =>
      if proc !in h.alive || !answers then Some(With(h, k, Stopping(proc)))
      else if found.None? then Some(h)
      else if !written then Some(With(h, k, Stopping(proc)))
      else
        var r := Record(proc, h.endpoint, found.value, version);
        Some(With(h, k, Leaving(Started(proc), Some(proc))).(file := Holds(r)))
    case (Polling(proc), GiveUpPolling) => Some(With(h, k, Stopping(proc)))
    case (Stopping(proc), Terminate(dies, answers)) =>
      if proc !in h.alive || !answers then Some(With(h, k, Leaving(Failed, Some(proc))))
      else Some(With(h, k, Terminated(proc)).(alive := if dies then h.alive - {proc} else h.alive))
    case (Terminated(proc), Kill(answers)) =>
      Some(With(h, k, Leaving(Failed, Some(proc))).(alive := if answers then h.alive - {proc} else h.alive))
    case (Leaving(reply, _), Leave) => Some(With(h, k, Done(reply)).(lock := None))
    case _ => None
  }

  function Step(h: Home, k: nat, l: Label): Option<Home> {
    match l
    case Dies(proc) => Some(h.(alive := h.alive - {proc}))
    case Arrives => Some(h.(calls := h.calls + [Waiting]))
    case _ => if k < |h.calls| then CallStep(h, k, l) else None
  }

  // ----- the invariant -----

  predicate Inside(p: Phase) { !p.Waiting? && !p.Done? }

  /** The server this call has started and not yet recorded or stopped. */
  function Own(p: Phase): Option<Proc> {
    match p
    case Spawned(proc) => Some(proc)
    case Polling(proc) => Some(proc)
    case Stopping(proc) => Some(proc)
    case Terminated(proc) => Some(proc)
    case _ => None
  }

  ghost predicate Exclusive(h: Home) {
    && (h.lock.Some? ==> h.lock.value < |h.calls| && Inside(h.calls[h.lock.value]))
    && (forall k :: 0 <= k < |h.calls| && Inside(h.calls[k]) ==> h.lock == Some(k))
  }

  ghost predicate RecordedIs(h: Home, p: Proc) { h.file.Holds? && h.file.record.proc == p }

  function Current(h: Home): Phase {
    if h.lock.Some? && h.lock.value < |h.calls| then h.calls[h.lock.value] else Waiting
  }

  /** Every living server that was started here is the recorded one, or the lock holder's own. */
  ghost predicate Accounted(h: Home) {
    && (forall p :: p in h.started && p in h.alive ==>
          h.alive[p] == h.endpoint && (RecordedIs(h, p) || Own(Current(h)) == Some(p)))
    && (h.file.Holds? && h.file.record.proc in h.started ==> h.file.record.endpoint == h.endpoint)
  }

  /** While a call prepares or owns a server, no recorded server started here is alive, except its own. */
  ghost predicate NoRival(h: Home) {
    var p := Current(h);
    && (p.HasRecord? ==> p.record == (if h.file.Holds? then Some(h.file.record) else None))
    && (p.Clear? || Own(p).Some? ==> h.file.Holds? ==>
          (h.file.record.proc in h.started ==> h.file.record.proc !in h.alive) && Own(p) != Some(h.file.record.proc))
    && (Own(p).Some? ==> Own(p).value in h.started)
    && (p.Leaving? && p.spawned.Some? && p.reply == Failed ==> p.spawned.value !in h.alive)
    && (p.Leaving? && p.reply.Started? ==> RecordedIs(h, p.reply.proc) && p.reply.proc in h.started)
  }

  ghost predicate Inv(h: Home) { Exclusive(h) && Accounted(h) && NoRival(h) }

  /** A step that gives up the call's own server, still alive, because ps does not answer: for its start
      time, before the first signal, or before the last. */
  predicate LeavesBehind(h: Home, k: nat, l: Label) {
    k < |h.calls| &&
    match (h.calls[k], l)
    case (Spawned(proc), Fingerprint(ok)) => !ok && proc in h.alive
    case (Stopping(proc), Terminate(_, answers)) => !answers && proc in h.alive
    case (Terminated(proc), Kill(answers)) => !answers && proc in h.alive
    case _ => false
  }

  /** A step that takes the recorded process for dead while it lives, because ps does not answer. */
  predicate Overlooks(h: Home, k: nat, l: Label) {
    k < |h.calls| &&
    match (h.calls[k], l)
    case (HasRecord(Some(r)), Probe(None, _, answers)) => !answers && Matches(h, r)
    case _ => false
  }

  /** The two ways in which a failing ps does harm: a server of our own is left behind, or overlooked. */
  predicate Harmful(h: Home, k: nat, l: Label) {
    LeavesBehind(h, k, l) || (Overlooks(h, k, l) && h.calls[k].record.value.proc in h.started)
  }

  lemma ExclusiveStep(h: Home, k: nat, l: Label)
    requires Exclusive(h) && Step(h, k, l).Some?
    ensures Exclusive(Step(h, k, l).value)
  {
  }

  /** Labels that change who is alive or recorded. */
  predicate Acts(l: Label) { l.Dies? || l.Spawn? || l.Poll? || l.Terminate? || l.Kill? }

  lemma ActAccounted(h: Home, k: nat, l: Label)
    requires Inv(h) && Acts(l) && !Harmful(h, k, l) && Step(h, k, l).Some?
    ensures Accounted(Step(h, k, l).value)
  {
  }

  lemma MoveAccounted(h: Home, k: nat, l: Label)
    requires Inv(h) && !Acts(l) && !Harmful(h, k, l) && Step(h, k, l).Some?
    ensures Accounted(Step(h, k, l).value)
  {
  }

  lemma NoRivalAct(h: Home, k: nat, l: Label)
    requires Inv(h) && Acts(l) && !Harmful(h, k, l) && Step(h, k, l).Some?
    ensures NoRival(Step(h, k, l).value)
  {
  }

  lemma NoRivalMove(h: Home, k: nat, l: Label)
    requires Inv(h) && !Acts(l) && !Harmful(h, k, l) && Step(h, k, l).Some?
    ensures NoRival(Step(h, k, l).value)
  {
  }

  lemma InvStep(h: Home, k: nat, l: Label)
    requires Inv(h) && !Harmful(h, k, l) && Step(h, k, l).Some?
    ensures Inv(Step(h, k, l).value)
  {
    ExclusiveStep(h, k, l);
    if Acts(l) {
      ActAccounted(h, k, l);
      NoRivalAct(h, k, l);
    } else {
      MoveAccounted(h, k, l);
      NoRivalMove(h, k, l);
    }
  }

  /** A service home nobody has used through this program yet; its record file is arbitrary. */
  function Fresh(endpoint: string, file: RecordFile, alive: map<Proc, string>): Home {
    Home(endpoint, alive, {}, file, None, [])
  }

  function Run(h: Home, moves: seq<(nat, Label)>): Option<Home> {
    if moves == [] then Some(h) else
    var before, last := Run(h, moves[..|moves| - 1]), moves[|moves| - 1];
    if before.None? then None else Step(before.value, last.0, last.1)
  }

  /** ps does no harm in this run. */
  ghost predicate Harmless(h: Home, moves: seq<(nat, Label)>)
    requires Run(h, moves).Some?
  {
    moves != [] ==>
      var init, last := moves[..|moves| - 1], moves[|moves| - 1];
      Harmless(h, init) && !Harmful(Run(h, init).value, last.0, last.1)
  }

  lemma {:induction false} RunKeepsInv(h: Home, moves: seq<(nat, Label)>, g: Home)
    requires Inv(h) && Run(h, moves) == Some(g) && Harmless(h, moves)
    ensures Inv(g)
  {
    if moves != [] {
      var init, last := moves[..|moves| - 1], moves[|moves| - 1];
      RunKeepsInv(h, init, Run(h, init).value);
      InvStep(Run(h, init).value, last.0, last.1);
    }
  }
}
