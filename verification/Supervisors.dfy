/** Any number of supervisors sharing the per-thread file locks. */
module Supervisors {
  import opened Prelude
  import opened Messages
  import opened AppClient
  import opened Bindings
  import opened Subscriptions
  import opened Delivery
  import opened DeliveryInvariant
  import opened DeliveryHistory

  datatype Key = Key(endpoint: string, thread: string)

  /** `locks` names the supervisor holding each thread's file lock. */
  datatype System = System(sups: seq<Sup>, locks: map<Key, nat>)

  function KeyOf(b: Binding): Key { Key(b.route.endpoint, b.route.thread) }

  /** From acquiring the thread lock until the delivery attempt returns. */
  predicate Holds(s: Sup) {
    s.worker.Busy? &&
    (|| s.worker.phase.Locked? || s.worker.phase.Inspecting? || s.worker.phase.Authorizing?
     || s.worker.phase.Authorized? || s.worker.phase.Awaiting? || s.worker.phase.Rechecking?)
  }

  /** One supervisor moves. The operating system grants a lock only if it is free, and takes it back
      when its holder unlocks or dies. */
  function SysStep(w: World, y: System, k: nat, l: Label): Option<System>
    requires k < |y.sups|
  {
    var s, after := y.sups[k], Step(w, y.sups[k], l);
    if after.None? then None else
    var t := after.value;
    var sups := y.sups[k := t];
    if Holds(t) && !Holds(s) then
      if KeyOf(t.worker.snap) in y.locks then None
      else Some(System(sups, y.locks[KeyOf(t.worker.snap) := k]))
    else if Holds(s) && !Holds(t) then Some(System(sups, y.locks - {KeyOf(s.worker.snap)}))
    else Some(System(sups, y.locks))
  }

  ghost predicate LockTable(y: System) {
    && (forall k :: 0 <= k < |y.sups| && Holds(y.sups[k]) ==>
          KeyOf(y.sups[k].worker.snap) in y.locks && y.locks[KeyOf(y.sups[k].worker.snap)] == k)
    && (forall key :: key in y.locks ==>
          y.locks[key] < |y.sups| && Holds(y.sups[y.locks[key]]) && KeyOf(y.sups[y.locks[key]].worker.snap) == key)
  }

  ghost predicate SysInv(w: World, y: System) {
    LockTable(y) && forall k :: 0 <= k < |y.sups| ==> Inv(w, y.sups[k])
  }

  lemma HoldingKeepsSnap(w: World, s: Sup, l: Label, t: Sup)
    requires Step(w, s, l) == Some(t) && Holds(s) && Holds(t)
    ensures t.worker.snap == s.worker.snap
  {
  }

  lemma LockTableStep(w: World, y: System, k: nat, l: Label, z: System)
    requires LockTable(y) && k < |y.sups| && SysStep(w, y, k, l) == Some(z)
    ensures LockTable(z)
  {
    var s, t := y.sups[k], z.sups[k];
    if Holds(s) && Holds(t) { HoldingKeepsSnap(w, s, l, t); }
    if Holds(t) && !Holds(s) { LockTaken(y, k, t, z); }
    else if Holds(s) && !Holds(t) { LockReleased(y, k, t, z); }
    else { LocksStay(y, k, t, z); }
  }

  lemma LockTaken(y: System, k: nat, t: Sup, z: System)
    requires LockTable(y) && k < |y.sups| && Holds(t) && !Holds(y.sups[k]) && KeyOf(t.worker.snap) !in y.locks
    requires z == System(y.sups[k := t], y.locks[KeyOf(t.worker.snap) := k])
    ensures LockTable(z)
  {
  }

  lemma LockReleased(y: System, k: nat, t: Sup, z: System)
    requires LockTable(y) && k < |y.sups| && Holds(y.sups[k]) && !Holds(t)
    requires z == System(y.sups[k := t], y.locks - {KeyOf(y.sups[k].worker.snap)})
    ensures LockTable(z)
  {
  }

  lemma LocksStay(y: System, k: nat, t: Sup, z: System)
    requires LockTable(y) && k < |y.sups| && (Holds(t) <==> Holds(y.sups[k]))
    requires Holds(t) ==> t.worker.snap == y.sups[k].worker.snap
    requires z == System(y.sups[k := t], y.locks)
    ensures LockTable(z)
  {
  }

  lemma SysStepKeeps(w: World, y: System, k: nat, l: Label, z: System)
    requires SysInv(w, y) && k < |y.sups| && SysStep(w, y, k, l) == Some(z)
    ensures SysInv(w, z) && |z.sups| == |y.sups|
  {
    LockTableStep(w, y, k, l, z);
    SysStepMovesOne(w, y, k, l, z);
    var s := y.sups[k];
    StepKeepsInv(w, s, l);
    OthersKeepInv(w, y.sups, k, Step(w, s, l).value, z.sups);
  }

  lemma OthersKeepInv(w: World, sups: seq<Sup>, k: nat, t: Sup, after: seq<Sup>)
    requires k < |sups| && Inv(w, t) && (forall j :: 0 <= j < |sups| ==> Inv(w, sups[j])) && after == sups[k := t]
    ensures forall j :: 0 <= j < |after| ==> Inv(w, after[j])
  {
  }

  function SysRun(w: World, y: System, moves: seq<(nat, Label)>): Option<System> {
    if moves == [] then Some(y) else
    var before, move := SysRun(w, y, moves[..|moves| - 1]), moves[|moves| - 1];
    if before.None? || move.0 >= |before.value.sups| then None else SysStep(w, before.value, move.0, move.1)
  }

  lemma {:induction false} SysRunKeeps(w: World, y: System, moves: seq<(nat, Label)>, z: System)
    requires SysInv(w, y) && SysRun(w, y, moves) == Some(z)
    ensures SysInv(w, z) && |z.sups| == |y.sups|
  {
    if moves != [] {
      var init, last := moves[..|moves| - 1], moves[|moves| - 1];
      var m := SysRun(w, y, init).value;
      SysRunKeeps(w, y, init, m);
      SysStepKeeps(w, m, last.0, last.1, z);
    }
  }

  /** The labels of one supervisor among the moves of all. */
  function Project(moves: seq<(nat, Label)>, k: nat): seq<Label> {
    if moves == [] then [] else
    var before, last := Project(moves[..|moves| - 1], k), moves[|moves| - 1];
    if last.0 == k then before + [last.1] else before
  }

  lemma RunSnoc(w: World, s: Sup, ls: seq<Label>, l: Label)
    requires Run(w, s, ls).Some?
    ensures Run(w, s, ls + [l]) == Step(w, Run(w, s, ls).value, l)
  {
    assert (ls + [l])[..|ls|] == ls;
  }

  lemma SysStepMovesOne(w: World, y: System, k: nat, l: Label, z: System)
    requires k < |y.sups| && SysStep(w, y, k, l) == Some(z)
    ensures Step(w, y.sups[k], l).Some? && z.sups == y.sups[k := Step(w, y.sups[k], l).value]
  {
  }

  /** Seen alone, each supervisor of a system makes a run, so what holds of every run holds of it. */
  lemma {:induction false} EachMakesARun(w: World, y: System, moves: seq<(nat, Label)>, z: System, k: nat)
    requires SysRun(w, y, moves) == Some(z) && k < |y.sups|
    ensures |z.sups| == |y.sups| && Run(w, y.sups[k], Project(moves, k)) == Some(z.sups[k])
  {
    if moves != [] {
      var init, last := moves[..|moves| - 1], moves[|moves| - 1];
      var m := SysRun(w, y, init).value;
      EachMakesARun(w, y, init, m, k);
      SysStepMovesOne(w, m, last.0, last.1, z);
      RunSnoc(w, y.sups[k], Project(init, k), last.1);
    }
  }

  lemma FreshSystem(w: World, sups: seq<Sup>)
    requires forall k :: 0 <= k < |sups| ==> sups[k] == Start(sups[k].nick, sups[k].session, sups[k].log)
    ensures SysInv(w, System(sups, map[]))
  {
    forall k | 0 <= k < |sups| ensures Inv(w, sups[k]) { StartHasInv(w, sups[k].nick, sups[k].session, sups[k].log); }
  }

  /** However many supervisors are bound to one thread, at most one is anywhere between taking its
      lock, inspecting it, and learning the fate of a dispatch to it. */
  lemma OneAtATime(w: World, y: System, moves: seq<(nat, Label)>, z: System, i: nat, j: nat)
    requires SysInv(w, y) && SysRun(w, y, moves) == Some(z)
    requires i < |z.sups| && j < |z.sups| && Holds(z.sups[i]) && Holds(z.sups[j])
    requires z.sups[i].worker.snap.route.endpoint == z.sups[j].worker.snap.route.endpoint
    requires z.sups[i].worker.snap.route.thread == z.sups[j].worker.snap.route.thread
    ensures i == j
  {
    SysRunKeeps(w, y, moves, z);
  }

  /** The steps of a delivery attempt, from the check of the binding to the last answer. */
  predicate Attempts(l: Label) {
    l.CheckCurrent? || l.Inspect? || l.Authorize? || l.Dispatched? || l.Answer? || l.Reinspect?
  }

  /** All of an attempt happens under the thread's lock. */
  lemma AttemptsAreHeld(w: World, s: Sup, l: Label)
    requires Attempts(l) && Step(w, s, l).Some?
    ensures Holds(s)
  {
  }

  /** Another supervisor is at this thread. */
  ghost predicate AtThread(y: System, j: nat, route: Route) {
    && j < |y.sups| && Holds(y.sups[j])
    && y.sups[j].worker.snap.route.endpoint == route.endpoint && y.sups[j].worker.snap.route.thread == route.thread
  }

  /** A thread's lock is refused exactly while somebody is at that very thread. */
  lemma LockIsPerThread(w: World, y: System, moves: seq<(nat, Label)>, z: System, k: nat)
    requires SysInv(w, y) && SysRun(w, y, moves) == Some(z)
    requires k < |z.sups| && WantsThread(w, z.sups[k])
    ensures SysStep(w, z, k, LockThread(true)).Some? <==> forall j: nat :: !AtThread(z, j, z.sups[k].worker.snap.route)
  {
    SysRunKeeps(w, y, moves, z);
    var key := KeyOf(z.sups[k].worker.snap);
    if key in z.locks { assert AtThread(z, z.locks[key], z.sups[k].worker.snap.route); }
    GrantedIfFree(w, z, k);
  }

  lemma GrantedIfFree(w: World, z: System, k: nat)
    requires k < |z.sups| && WantsThread(w, z.sups[k])
    ensures SysStep(w, z, k, LockThread(true)).Some? <==> KeyOf(z.sups[k].worker.snap) !in z.locks
  {
  }

  // ----- waiting -----

  predicate WantsThread(w: World, s: Sup) {
    At(s, Head) && HasRecord(s) && HeadAddressed(w, s) && s.worker.batch[0].msg.eventId != ""
  }

  predicate WantsMutex(w: World, s: Sup) {
    match s.worker
    case Idle => true
    case Busy(phase, _, _) =>
      || (phase.Head? && HasRecord(s) && !HeadAddressed(w, s))
      || phase.Locked? || phase.Authorizing? || phase.Failing? || phase.Acking?
  }

  /** Per supervisor: its worker, the request inside the mutex, and a request queued for it. */
  datatype Process = Worker(k: nat) | Inside(k: nat) | Queued(k: nat)

  ghost predicate Waits(w: World, y: System, p: Process, q: Process)
    requires p.k < |y.sups|
  {
    var s := y.sups[p.k];
    match p
    case Worker(k) =>
      || (WantsThread(w, s) && KeyOf(s.worker.snap) in y.locks && q == Worker(y.locks[KeyOf(s.worker.snap)]))
      || (WantsMutex(w, s) && s.mutex == ByRequest && q == Inside(k))
      || (WantsMutex(w, s) && s.mutex == ByWorker && q == Worker(k))
    case Inside(_) => false
    case Queued(k) => (s.mutex == ByRequest && q == Inside(k)) || (s.mutex == ByWorker && q == Worker(k))
  }

  function Rank(w: World, y: System, p: Process): nat
    requires p.k < |y.sups|
  {
    match p
    case Worker(k) => if WantsThread(w, y.sups[k]) then 2 else if WantsMutex(w, y.sups[k]) then 1 else 0
    case Inside(_) => 0
    case Queued(_) => 1
  }

  lemma RequestWaitingDescends(w: World, y: System, p: Process, q: Process)
    requires SysInv(w, y) && p.k < |y.sups| && !p.Worker? && Waits(w, y, p, q)
    ensures q.k < |y.sups| && Rank(w, y, p) > Rank(w, y, q)
  {
    assert Inv(w, y.sups[p.k]);
  }

  lemma WorkerWaitingDescends(w: World, y: System, p: Process, q: Process)
    requires SysInv(w, y) && p.k < |y.sups| && p.Worker? && Waits(w, y, p, q)
    ensures q.k < |y.sups| && Rank(w, y, p) > Rank(w, y, q)
  {
    assert Inv(w, y.sups[p.k]);
  }

  /** The thread lock comes before the mutex, never after: waiting always points down. */
  lemma WaitingDescends(w: World, y: System, p: Process, q: Process)
    requires SysInv(w, y) && p.k < |y.sups| && Waits(w, y, p, q)
    ensures q.k < |y.sups| && Rank(w, y, p) > Rank(w, y, q)
  {
    if p.Worker? { WorkerWaitingDescends(w, y, p, q); } else { RequestWaitingDescends(w, y, p, q); }
  }

  ghost predicate Chain(w: World, y: System, ps: seq<Process>) {
    && (forall i :: 0 <= i < |ps| ==> ps[i].k < |y.sups|)
    && (forall i :: 0 <= i < |ps| - 1 ==> Waits(w, y, ps[i], ps[i + 1]))
  }

  lemma {:induction false} ChainDescends(w: World, y: System, ps: seq<Process>)
    requires SysInv(w, y) && Chain(w, y, ps) && ps != []
    ensures Rank(w, y, ps[0]) >= Rank(w, y, ps[|ps| - 1]) + (|ps| - 1)
  {
    if |ps| > 1 {
      var rest := ps[1..];
      assert forall i :: 0 <= i < |rest| - 1 ==> Waits(w, y, rest[i], rest[i + 1]) by {
        forall i | 0 <= i < |rest| - 1 ensures Waits(w, y, rest[i], rest[i + 1]) {
          assert Waits(w, y, ps[i + 1], ps[i + 2]);
        }
      }
      ChainDescends(w, y, rest);
      WaitingDescends(w, y, ps[0], ps[1]);
    }
  }

  /** No reachable state has a circular wait, and no process waits behind more than two others. */
  lemma NoCircularWait(w: World, y: System, moves: seq<(nat, Label)>, z: System, ps: seq<Process>)
    requires SysInv(w, y) && SysRun(w, y, moves) == Some(z)
    requires Chain(w, z, ps) && ps != []
    ensures |ps| <= 3 && (|ps| > 1 ==> ps[0] != ps[|ps| - 1])
  {
    SysRunKeeps(w, y, moves, z);
    ChainDescends(w, z, ps);
  }

  ghost predicate Releases(w: World, s: Sup, l: Label) {
    Step(w, s, l).Some? && Step(w, s, l).value.mutex == Free
  }

  lemma RequestReleases(w: World, s: Sup, id: string)
    requires Inv(w, s) && s.mutex == ByRequest && id !in s.gens
    ensures exists l :: Releases(w, s, l)
  {
    assert Releases(w, s, if s.request.Unbinding? then UnbindExit(true) else BindExit(id, None, true));
  }

  lemma WorkerReleases(w: World, s: Sup)
    requires Inv(w, s) && s.mutex == ByWorker
    ensures exists l :: Releases(w, s, l)
  {
    var l := match s.worker.phase
      case Filtering => FilterExit(true)
      case Authorized(_) => Dispatched(true, true)
      case SavingFailure(_) => FailExit(true)
      case _ => AckExit(true);
    assert Releases(w, s, l);
  }

  /** Whoever is inside the mutex can leave it without anyone else moving. */
  lemma MutexIsReleased(w: World, s: Sup, id: string)
    requires Inv(w, s) && s.mutex != Free && id !in s.gens
    ensures exists l :: Releases(w, s, l)
  {
    if s.mutex == ByRequest {
      RequestReleases(w, s, id);
    } else {
      WorkerReleases(w, s);
    }
  }
}
