/** One call of the app-server manager, from acquiring the lock to releasing it. */
module ServiceCall {
  import opened Prelude
  import opened Service
  import Endpoints

  /** One turn of the start-up loop: whether the process has gone, whether ps answers for it, what the
      probe finds, whether the record can be written, and whether the caller's time is up. */
  datatype Tick = Tick(
    gone: bool, answers: bool, found: Option<Identity>, version: string, written: bool, expired: bool)

  /** How stopping a server goes: whether ps answers before the first signal and before the last, and
      whether the server obeys the first. */
  datatype Stop = Stop(answers: bool, obeys: bool, again: bool)

  /** `again` is the second probe, made after the socket of the recorded, living server is put in order;
      `answers` whether ps answers when the recorded server is looked for; `named` whether it names the
      start time of the new one, and `gone` whether that one has died by then. */
  datatype Outside = Outside(
    found: Option<Identity>, again: Option<Identity>, matched: bool, answers: bool, prepared: bool, spawned: bool,
    proc: Proc, named: bool, gone: bool, ticks: seq<Tick>, stop: Stop)

  /** A request for a configured endpoint: nothing is managed, the endpoint is only probed. */
  datatype Configured = Configured(withHome: bool, endpoint: string, found: Option<Identity>)

  class Manager {
    const endpoint: string
    var alive: map<Proc, string>
    var started: set<Proc>
    var file: RecordFile

    constructor (endpoint: string, file: RecordFile, alive: map<Proc, string>)
      ensures Sound() && this.file == file && this.alive == alive && this.started == {} && this.endpoint == endpoint
    {
      this.endpoint, this.file, this.alive, this.started := endpoint, file, alive, {};
    }

    /** Between calls: a living server started here is the recorded one. */
    ghost predicate Sound()
      reads this
    {
      Accounted(Home(endpoint, alive, started, file, None, []))
    }

    predicate Unused(proc: Proc)
      reads this
    {
      proc !in alive && proc !in started && !(file.Holds? && file.record.proc == proc)
    }

    predicate Lives(r: Record)
      reads this
    {
      r.proc in alive && alive[r.proc] == r.endpoint
    }

    /** The server is stopped exactly if ps answers for it and it obeys, or ps answers a second time. */
    method StopStartedServer(proc: Proc, stop: Stop)
      modifies this`alive
      ensures alive == if stop.answers && (stop.obeys || stop.again) then old(alive) - {proc} else old(alive)
    {
      if proc !in alive || !stop.answers { return; }
      if stop.obeys { alive := alive - {proc}; }
      if proc in alive && stop.again { alive := alive - {proc}; }
    }

    method UseConfigured(c: Configured) returns (reply: Reply)
      ensures reply == if Usable(c) then Healthy(None, c.found.value) else Failed
    {
      if c.withHome { return Failed; }
      var local := Endpoints.ValidateLocalEndpoint(c.endpoint);
      if !local || c.found.None? { return Failed; }
      return Healthy(None, c.found.value);
    }

    /** The step system inside a call of this manager, which holds the lock. */
    ghost function At(phase: Phase): Home
      reads this
    {
      Home(endpoint, alive, started, file, Some(0), [phase])
    }

    /** Starting a server and waiting for it: it is reported exactly if it gets ready, and then it is alive
        and on record; otherwise it is alive exactly if it did not die and could not be named or stopped. */
    method StartServer(o: Outside) returns (reply: Reply, ghost moves: seq<(nat, Label)>)
      requires Unused(o.proc)
      modifies this
      ensures started == old(started) + {o.proc}
      ensures reply == Started(o.proc) <==> o.named && exists k: nat :: GetsReady(o.ticks, k)
      ensures reply == Failed || reply == Started(o.proc)
      ensures reply == Failed ==> file == old(file)
      ensures alive == if reply == Failed && !LeftAlive(o) then old(alive) else old(alive)[o.proc := endpoint]
      ensures reply.Started? ==> exists k: nat :: RecordedAt(file, o, endpoint, k)
      ensures Run(old(At(Clear)), moves) == Some(At(Leaving(reply, Some(o.proc))))
    {
      ghost var before := At(Clear);
      alive, started := alive[o.proc := endpoint], started + {o.proc};
      RemovedAgain(before.alive, o.proc, endpoint);
      if !o.named {
        // without a start time the server is not stopped, whether or not it is still there
        if o.gone { alive := alive - {o.proc}; }
        moves := UnnamedPath(before, o.proc, o.gone);
        return Failed, moves;
      }
      moves := NamedPath(before, o.proc);
      var ready: bool;
      ready, moves := AwaitServer(o, before, moves);
      if ready { return Started(o.proc), moves; }
      ghost var m := At(Stopping(o.proc));
      StopStartedServer(o.proc, o.stop);
      moves := StopPath(before, moves, m, o.proc, o.stop, At(Leaving(Failed, Some(o.proc))));
      return Failed, moves;
    }

    /** The start-up loop. */
    method AwaitServer(o: Outside, ghost before: Home, ghost earlier: seq<(nat, Label)>)
      returns (ready: bool, ghost moves: seq<(nat, Label)>)
      requires o.proc in alive && Run(before, earlier) == Some(At(Polling(o.proc)))
      modifies this`alive, this`file
      ensures ready <==> exists k: nat :: GetsReady(o.ticks, k)
      ensures alive == if DiesWaiting(o.ticks) then old(alive) - {o.proc} else old(alive)
      ensures if ready then exists k: nat :: RecordedAt(file, o, endpoint, k) else file == old(file)
      ensures Run(before, moves)
           == Some(At(if ready then Leaving(Started(o.proc), Some(o.proc)) else Stopping(o.proc)))
    {
      ghost var m := At(Polling(o.proc));
      moves := earlier;
      for i := 0 to |o.ticks|
        invariant alive == m.alive && file == m.file && Run(before, moves) == Some(m)
        invariant forall k :: 0 <= k < i ==> GoesOn(o.ticks[k])
      {
        var tick := o.ticks[i];
        WaitingEnds(o.ticks, i);
        if tick.gone { alive := alive - {o.proc}; }
        if o.proc !in alive || !tick.answers {
          moves := StopsWaiting(before, moves, m, o.proc, tick);
          return false, moves;
        }
        if tick.found.Some? {
          if !tick.written {
            moves := StopsWaiting(before, moves, m, o.proc, tick);
            return false, moves;
          }
          file := Holds(Record(o.proc, endpoint, tick.found.value, tick.version));
          assert RecordedAt(file, o, endpoint, i);
          moves := EndsReady(before, moves, m, o.proc, tick);
          return true, moves;
        }
        moves := KeepsWaiting(before, moves, m, o.proc, tick);
        if tick.expired {
          moves := Then(before, moves, m, GiveUpPolling, m.(calls := [Stopping(o.proc)]));
          return false, moves;
        }
      }
      WaitingRunsOut(o.ticks);
      moves := Then(before, moves, m, GiveUpPolling, m.(calls := [Stopping(o.proc)]));
      return false, moves;
    }

    /** What the probes of the managed endpoint have found in the end. */
    ghost function Found(o: Outside): Option<Identity>
      reads this
    {
      if o.found.None? && file.Holds? && file.record.endpoint == endpoint && Lives(file.record) then o.again
      else o.found
    }

    /** The call finds a server that it may use: nothing is on record, or just this server is. */
    ghost predicate Reusable(o: Outside)
      reads this
    {
      && !file.Invalid? && Found(o).Some?
      && (file.Holds? ==>
            o.matched && file.record.endpoint == endpoint && file.record.identity == Found(o).value)
    }

    /** The call gets as far as starting a server. */
    ghost predicate Startable(o: Outside)
      reads this
    {
      && !file.Invalid? && Found(o).None? && o.prepared && o.spawned
      && !(file.Holds? && o.answers && Lives(file.record))
    }

    /** Which reply a call gives: a server that answers is reused exactly if nothing contradicts it, and one
        is started exactly if none answers, the recorded one is not seen alive, and the new one gets
        ready; everything else fails. The world stays sound exactly unless the call fails with its own
        server still alive, or starts one beside a living server started before; and neither happens
        while ps answers. */
    method EnsureCodexAppServer(o: Outside, configured: Option<Configured>)
      returns (reply: Reply, ghost moves: seq<(nat, Label)>)
      requires Sound() && Unused(o.proc)
      modifies this
      ensures configured.Some? ==>
        reply == if Usable(configured.value) then Healthy(None, configured.value.found.value) else Failed
      ensures configured.None? ==>
        (reply.Started? <==> old(Startable(o)) && o.named && exists k: nat :: GetsReady(o.ticks, k))
      ensures configured.None? ==> (reply.Healthy? <==> old(Reusable(o)))
      ensures configured.None? && reply.Healthy? ==>
        reply == Healthy(if old(file).Holds? then Some(old(file).record.proc) else None, old(Found(o)).value)
      ensures started == if configured.None? && old(Startable(o)) then old(started) + {o.proc} else old(started)
      ensures reply.Healthy? || started == old(started) ==> alive == old(alive) && file == old(file)
      ensures reply.Started? ==> reply.proc == o.proc && exists k: nat :: RecordedAt(file, o, endpoint, k)
      ensures reply == Failed ==> file == old(file)
      ensures started != old(started) ==>
        alive == if reply == Failed && !LeftAlive(o) then old(alive) else old(alive)[o.proc := endpoint]
      ensures Sound() <==>
        && (reply == Failed ==> alive == old(alive))
        && (reply.Started? ==> forall p :: p in old(started) ==> p !in old(alive))
      ensures reply.Started? && o.answers ==> forall p :: p in old(started) ==> p !in old(alive)
      ensures configured.None? ==>
        Run(old(At(Waiting).(lock := None)), moves) == Some(At(Done(reply)).(lock := None))
    {
      moves := [];
      if configured.Some? {
        reply := UseConfigured(configured.value);
        return;
      }
      reply, moves := EnsureManaged(o);
    }

    /** The same, of the endpoint this manager looks after. */
    method EnsureManaged(o: Outside) returns (reply: Reply, ghost moves: seq<(nat, Label)>)
      requires Sound() && Unused(o.proc)
      modifies this
      ensures reply.Started? <==> old(Startable(o)) && o.named && exists k: nat :: GetsReady(o.ticks, k)
      ensures reply.Healthy? <==> old(Reusable(o))
      ensures reply.Healthy? ==>
        reply == Healthy(if old(file).Holds? then Some(old(file).record.proc) else None, old(Found(o)).value)
      ensures started == if old(Startable(o)) then old(started) + {o.proc} else old(started)
      ensures started == old(started) ==> alive == old(alive)
      ensures reply.Started? ==> reply.proc == o.proc && exists k: nat :: RecordedAt(file, o, endpoint, k)
      ensures !reply.Started? ==> file == old(file)
      ensures started != old(started) ==>
        alive == if reply == Failed && !LeftAlive(o) then old(alive) else old(alive)[o.proc := endpoint]
      ensures Sound() <==>
        && (reply == Failed ==> alive == old(alive))
        && (reply.Started? ==> forall p :: p in old(started) ==> p !in old(alive))
      ensures reply.Started? && o.answers ==> forall p :: p in old(started) ==> p !in old(alive)
      ensures Run(old(At(Waiting).(lock := None)), moves) == Some(At(Done(reply)).(lock := None))
    {
      ghost var first := At(Waiting).(lock := None);
      if file.Invalid? {
        moves := InvalidPath(first);
        return Failed, moves;
      }
      var found := o.found;
      if found.None? && file.Holds? && file.record.endpoint == endpoint && Lives(file.record) {
        found := o.again;
      }
      if found.Some? {
        reply := ReuseServer(found.value, o.matched);
        moves := ReusePath(first, found.value, o.matched, o.answers, reply);
        return;
      }
      if file.Holds? && o.answers && Lives(file.record) {
        moves := RivalPath(first, o.matched);
        return Failed, moves;
      }
      moves := ClearPath(first, o.matched, o.answers);
      assert o.answers ==> forall p :: p in started ==> p !in alive;
      reply, moves := StartOne(o, first, moves);
    }

    /** What a call does that has found nothing to use. */
    method StartOne(o: Outside, ghost first: Home, ghost earlier: seq<(nat, Label)>)
      returns (reply: Reply, ghost moves: seq<(nat, Label)>)
      requires Sound() && Unused(o.proc) && Run(first, earlier) == Some(At(Clear))
      modifies this
      ensures reply == Failed || reply == Started(o.proc)
      ensures reply.Started? <==> o.prepared && o.spawned && o.named && exists k: nat :: GetsReady(o.ticks, k)
      ensures started == if o.prepared && o.spawned then old(started) + {o.proc} else old(started)
      ensures started == old(started) ==> alive == old(alive)
      ensures reply.Started? ==> exists k: nat :: RecordedAt(file, o, endpoint, k)
      ensures reply == Failed ==> file == old(file)
      ensures started != old(started) ==>
        alive == if reply == Failed && !LeftAlive(o) then old(alive) else old(alive)[o.proc := endpoint]
      ensures Sound() <==>
        && (reply == Failed ==> alive == old(alive))
        && (reply.Started? ==> forall p :: p in old(started) ==> p !in old(alive))
      ensures Run(first, moves) == Some(At(Done(reply)).(lock := None))
    {
      ghost var clear := At(Clear);
      if !o.prepared || !o.spawned {
        moves := UnstartedPath(first, earlier, clear, o);
        return Failed, moves;
      }
      ghost var before := Home(endpoint, alive, started, file, None, []);
      ghost var rest: seq<(nat, Label)>;
      reply, rest := StartServer(o);
      ghost var after := Home(endpoint, alive, started, file, None, []);
      if reply.Started? { SoundWhenStarted(before, after, o.proc); } else { SoundWhenFailed(before, after, o.proc); }
      moves := StartedPath(first, earlier, clear, rest, At(Leaving(reply, Some(o.proc))), reply);
    }

    method ReuseServer(found: Identity, matched: bool) returns (reply: Reply)
      requires !file.Invalid?
      ensures Exit(reply) == Reuse(At(Clear), if file.Holds? then Some(file.record) else None, found, matched)
      ensures reply.Healthy? <==>
        (file.Holds? ==> matched && file.record.endpoint == endpoint && file.record.identity == found)
      ensures if reply.Healthy?
        then reply == Healthy(if file.Holds? then Some(file.record.proc) else None, found) else reply == Failed
    {
      if file.Absent? { return Healthy(None, found); }
      var r := file.record;
      if !matched || r.endpoint != endpoint { return Failed; }
      if r.identity != found { return Failed; }
      return Healthy(Some(r.proc), found);
    }
  }

  // ----- a call as a path of the step system -----

  /** The step of the only call. */
  ghost predicate StepTo(m: Home, l: Label, t: Home) {
    && Step(m, 0, l).Some? && |Step(m, 0, l).value.calls| == 1 == |t.calls|
    && t == Step(m, 0, l).value.(calls := t.calls) && t.calls[0] == Step(m, 0, l).value.calls[0]
  }

  lemma Then(g: Home, moves: seq<(nat, Label)>, m: Home, l: Label, t: Home) returns (more: seq<(nat, Label)>)
    requires Run(g, moves) == Some(m) && StepTo(m, l, t)
    ensures Run(g, more) == Some(t)
  {
    assert Step(m, 0, l).value.calls == t.calls;
    more := moves + [(0, l)];
    assert more[..|moves|] == moves;
  }

  lemma {:induction false} Both(g: Home, first: seq<(nat, Label)>, m: Home, second: seq<(nat, Label)>, t: Home)
    returns (moves: seq<(nat, Label)>)
    requires Run(g, first) == Some(m) && Run(m, second) == Some(t)
    ensures Run(g, moves) == Some(t)
    decreases |second|
  {
    if second == [] { return first; }
    var init, last := second[..|second| - 1], second[|second| - 1];
    var before := Both(g, first, m, init, Run(m, init).value);
    moves := before + [last];
    assert moves[..|before|] == before;
  }

  /** A step at which the call fails, having started nothing. */
  lemma FailsAt(g: Home, earlier: seq<(nat, Label)>, m: Home, l: Label) returns (moves: seq<(nat, Label)>)
    requires Run(g, earlier) == Some(m) && |m.calls| == 1 && StepTo(m, l, m.(calls := [Exit(Failed)]))
    ensures Run(g, moves) == Some(m.(calls := [Done(Failed)], lock := None))
  {
    moves := Then(g, earlier, m, l, m.(calls := [Exit(Failed)]));
    moves := Then(g, moves, m.(calls := [Exit(Failed)]), Leave, m.(calls := [Done(Failed)], lock := None));
  }

  lemma StopPath(g: Home, earlier: seq<(nat, Label)>, m: Home, proc: Proc, stop: Stop, t: Home)
    returns (moves: seq<(nat, Label)>)
    requires Run(g, earlier) == Some(m) && m.calls == [Stopping(proc)]
    requires t == m.(alive := if stop.answers && (stop.obeys || stop.again) then m.alive - {proc} else m.alive,
                     calls := [Leaving(Failed, Some(proc))])
    ensures Run(g, moves) == Some(t)
  {
    var gone := m.(alive := m.alive - {proc});
    var m1 := (if stop.answers && stop.obeys then gone else m).(calls := [Terminated(proc)]);
    if proc !in m.alive || !stop.answers {
      assert m.alive - {proc} == m.alive || !stop.answers;
      moves := Then(g, earlier, m, Terminate(stop.obeys, stop.answers), t);
    } else {
      moves := Then(g, earlier, m, Terminate(stop.obeys, true), m1);
      KilledOnce(m.alive, proc);
      moves := Then(g, moves, m1, Kill(stop.again), t);
    }
  }

  lemma KilledOnce(alive: map<Proc, string>, proc: Proc)
    ensures alive - {proc} - {proc} == alive - {proc}
  {
  }

  /** A turn of the loop that ends the wait without a server. */
  lemma StopsWaiting(g: Home, earlier: seq<(nat, Label)>, m: Home, proc: Proc, tick: Tick)
    returns (moves: seq<(nat, Label)>)
    requires Run(g, earlier) == Some(m) && m.calls == [Polling(proc)]
    requires tick.gone || !tick.answers || (proc in m.alive && tick.found.Some? && !tick.written)
    ensures Run(g, moves) == Some(m.(alive := if tick.gone then m.alive - {proc} else m.alive,
                                     calls := [Stopping(proc)]))
  {
    var m1 := if tick.gone then m.(alive := m.alive - {proc}) else m;
    moves := earlier;
    if tick.gone { moves := Then(g, moves, m, Dies(proc), m1); }
    moves := Then(g, moves, m1, Poll(tick.found, tick.version, tick.written, tick.answers),
                  m1.(calls := [Stopping(proc)]));
  }

  lemma EndsReady(g: Home, earlier: seq<(nat, Label)>, m: Home, proc: Proc, tick: Tick)
    returns (moves: seq<(nat, Label)>)
    requires Run(g, earlier) == Some(m) && m.calls == [Polling(proc)] && proc in m.alive
    requires tick.answers && tick.found.Some? && tick.written
    ensures Run(g, moves) == Some(m.(file := Holds(Record(proc, m.endpoint, tick.found.value, tick.version)),
                                     calls := [Leaving(Started(proc), Some(proc))]))
  {
    moves := Then(g, earlier, m, Poll(tick.found, tick.version, true, true),
                  m.(file := Holds(Record(proc, m.endpoint, tick.found.value, tick.version)),
                     calls := [Leaving(Started(proc), Some(proc))]));
  }

  lemma KeepsWaiting(g: Home, earlier: seq<(nat, Label)>, m: Home, proc: Proc, tick: Tick)
    returns (moves: seq<(nat, Label)>)
    requires Run(g, earlier) == Some(m) && m.calls == [Polling(proc)] && proc in m.alive
    requires tick.answers && tick.found.None?
    ensures Run(g, moves) == Some(m)
  {
    moves := Then(g, earlier, m, Poll(tick.found, tick.version, tick.written, true), m);
  }

  /** If the wait has gone on up to turn `i`, that turn decides whether it ends there, and how. */
  lemma WaitingEnds(ticks: seq<Tick>, i: nat)
    requires i < |ticks| && forall k :: 0 <= k < i ==> GoesOn(ticks[k])
    ensures GetsReady(ticks, i) ==> exists k: nat :: GetsReady(ticks, k)
    ensures !GoesOn(ticks[i]) && !GetsReady(ticks, i) ==> !exists k: nat :: GetsReady(ticks, k)
    ensures !GoesOn(ticks[i]) ==> (DiesWaiting(ticks) <==> ticks[i].gone)
  {
    if ticks[i].gone { assert DiesAt(ticks, i); }
  }

  lemma WaitingRunsOut(ticks: seq<Tick>)
    requires forall k :: 0 <= k < |ticks| ==> GoesOn(ticks[k])
    ensures !DiesWaiting(ticks) && !exists k: nat :: GetsReady(ticks, k)
  {
  }

  /** A home whose only call has yet to take the lock. */
  ghost predicate Unentered(g: Home) { g.calls == [Waiting] && g.lock.None? }

  /** The call's copy of the record. */
  function Read(g: Home): Phase { HasRecord(if g.file.Holds? then Some(g.file.record) else None) }

  lemma InvalidPath(g: Home) returns (moves: seq<(nat, Label)>)
    requires Unentered(g) && g.file.Invalid?
    ensures Run(g, moves) == Some(g.(calls := [Done(Failed)]))
  {
    var m := g.(calls := [Entered], lock := Some(0));
    moves := Then(g, [], g, Enter, m);
    moves := FailsAt(g, moves, m, ReadRecord);
  }

  lemma LookPath(g: Home) returns (moves: seq<(nat, Label)>)
    requires Unentered(g) && !g.file.Invalid?
    ensures Run(g, moves) == Some(g.(calls := [Read(g)], lock := Some(0)))
  {
    var m := g.(calls := [Entered], lock := Some(0));
    moves := Then(g, [], g, Enter, m);
    moves := Then(g, moves, m, ReadRecord, m.(calls := [Read(g)]));
  }

  lemma ReusePath(g: Home, found: Identity, matched: bool, answers: bool, reply: Reply)
    returns (moves: seq<(nat, Label)>)
    requires Unentered(g) && !g.file.Invalid? && Reuse(g, Read(g).record, found, matched) == Exit(reply)
    ensures Run(g, moves) == Some(g.(calls := [Done(reply)]))
  {
    moves := LookPath(g);
    var m := g.(calls := [Read(g)], lock := Some(0));
    moves := Then(g, moves, m, Probe(Some(found), matched, answers), m.(calls := [Exit(reply)]));
    moves := Then(g, moves, m.(calls := [Exit(reply)]), Leave, g.(calls := [Done(reply)]));
  }

  lemma RivalPath(g: Home, matched: bool) returns (moves: seq<(nat, Label)>)
    requires Unentered(g) && g.file.Holds? && Matches(g, g.file.record)
    ensures Run(g, moves) == Some(g.(calls := [Done(Failed)]))
  {
    moves := LookPath(g);
    moves := FailsAt(g, moves, g.(calls := [Read(g)], lock := Some(0)), Probe(None, matched, true));
  }

  lemma ClearPath(g: Home, matched: bool, answers: bool) returns (moves: seq<(nat, Label)>)
    requires Unentered(g) && !g.file.Invalid? && !(g.file.Holds? && answers && Matches(g, g.file.record))
    ensures Run(g, moves) == Some(g.(calls := [Clear], lock := Some(0)))
  {
    moves := LookPath(g);
    var m := g.(calls := [Read(g)], lock := Some(0));
    moves := Then(g, moves, m, Probe(None, matched, answers), m.(calls := [Clear]));
  }

  lemma UnnamedPath(m: Home, proc: Proc, gone: bool) returns (moves: seq<(nat, Label)>)
    requires m.calls == [Clear] && NewIn(m, proc)
    ensures Run(m, moves) == Some(m.(alive := if gone then m.alive else m.alive[proc := m.endpoint],
                                     started := m.started + {proc}, calls := [Leaving(Failed, Some(proc))]))
  {
    RemovedAgain(m.alive, proc, m.endpoint);
    var m1 := m.(alive := m.alive[proc := m.endpoint], started := m.started + {proc}, calls := [Spawned(proc)]);
    var m2 := if gone then m1.(alive := m.alive) else m1;
    moves := Then(m, [], m, Spawn(proc, true), m1);
    if gone { moves := Then(m, moves, m1, Dies(proc), m2); }
    moves := Then(m, moves, m2, Fingerprint(false), m2.(calls := [Leaving(Failed, Some(proc))]));
  }

  lemma NamedPath(m: Home, proc: Proc) returns (moves: seq<(nat, Label)>)
    requires m.calls == [Clear] && NewIn(m, proc)
    ensures Run(m, moves) == Some(m.(alive := m.alive[proc := m.endpoint], started := m.started + {proc},
                                     calls := [Polling(proc)]))
  {
    var m1 := m.(alive := m.alive[proc := m.endpoint], started := m.started + {proc}, calls := [Spawned(proc)]);
    moves := Then(m, [], m, Spawn(proc, true), m1);
    moves := Then(m, moves, m1, Fingerprint(true), m1.(calls := [Polling(proc)]));
  }

  lemma StartedPath(g: Home, earlier: seq<(nat, Label)>, clear: Home, rest: seq<(nat, Label)>, m: Home, reply: Reply)
    returns (moves: seq<(nat, Label)>)
    requires Run(g, earlier) == Some(clear) && clear.calls == [Clear] && Run(clear, rest) == Some(m)
    requires |m.calls| == 1 && m.calls[0].Leaving? && m.calls[0].reply == reply
    ensures Run(g, moves) == Some(m.(calls := [Done(reply)], lock := None))
  {
    moves := Then(g, earlier, clear, Prepare(true), clear);
    moves := Both(g, moves, clear, rest, m);
    moves := Then(g, moves, m, Leave, m.(calls := [Done(reply)], lock := None));
  }

  lemma UnstartedPath(g: Home, earlier: seq<(nat, Label)>, m: Home, o: Outside) returns (moves: seq<(nat, Label)>)
    requires Run(g, earlier) == Some(m) && m.calls == [Clear] && !(o.prepared && o.spawned)
    ensures Run(g, moves) == Some(m.(calls := [Done(Failed)], lock := None))
  {
    var m1 := m.(calls := [Exit(Failed)]);
    if o.prepared {
      moves := Then(g, earlier, m, Prepare(true), m);
      moves := Then(g, moves, m, Spawn(o.proc, false), m1);
    } else {
      moves := Then(g, earlier, m, Prepare(false), m1);
    }
    moves := Then(g, moves, m1, Leave, m.(calls := [Done(Failed)], lock := None));
  }

  /** A configured endpoint is used exactly if it is given alone, is one that is accepted, and answers. */
  ghost predicate Usable(c: Configured) {
    !c.withHome && Endpoints.ValidEndpoint(c.endpoint) && c.found.Some?
  }

  /** The server lives and ps says so, it does not answer yet, and there is time left. */
  predicate GoesOn(t: Tick) { !t.gone && t.answers && t.found.None? && !t.expired }

  /** After turns that only go on, the server lives, answers, and is put on record. */
  ghost predicate GetsReady(ticks: seq<Tick>, k: nat) {
    && k < |ticks| && !ticks[k].gone && ticks[k].answers && ticks[k].found.Some? && ticks[k].written
    && forall i :: 0 <= i < k ==> GoesOn(ticks[i])
  }

  /** The record is that of the new server, as the tick that got it ready found it. */
  ghost predicate RecordedAt(file: RecordFile, o: Outside, endpoint: string, k: nat) {
    GetsReady(o.ticks, k) && file == Holds(Record(o.proc, endpoint, o.ticks[k].found.value, o.ticks[k].version))
  }

  ghost predicate DiesAt(ticks: seq<Tick>, k: nat) {
    k < |ticks| && ticks[k].gone && forall i :: 0 <= i < k ==> GoesOn(ticks[i])
  }

  /** The new server is found to have died while it is waited for. */
  ghost predicate DiesWaiting(ticks: seq<Tick>) { exists k: nat :: DiesAt(ticks, k) }

  /** A new server that is given up is still alive. */
  ghost predicate LeftAlive(o: Outside) {
    if o.named then !DiesWaiting(o.ticks) && !(o.stop.answers && (o.stop.obeys || o.stop.again)) else !o.gone
  }

  lemma RemovedAgain(alive: map<Proc, string>, proc: Proc, endpoint: string)
    requires proc !in alive
    ensures alive[proc := endpoint] - {proc} == alive && alive - {proc} == alive
  {
  }

  ghost predicate NewIn(h: Home, proc: Proc) {
    proc !in h.alive && proc !in h.started && (h.file.Holds? ==> h.file.record.proc != proc)
  }

  lemma SoundWhenFailed(h: Home, t: Home, proc: Proc)
    requires Accounted(h) && h.lock.None? && NewIn(h, proc) && t.started == h.started + {proc} && t.file == h.file
    requires t.lock.None? && t.endpoint == h.endpoint
    requires t.alive == h.alive || t.alive == h.alive[proc := h.endpoint]
    ensures Accounted(t) <==> t.alive == h.alive
  {
    if t.alive != h.alive { assert proc in t.started && proc in t.alive; }
  }

  lemma SoundWhenStarted(h: Home, t: Home, proc: Proc)
    requires Accounted(h) && h.lock.None? && NewIn(h, proc) && t.started == h.started + {proc}
    requires t.lock.None? && t.endpoint == h.endpoint && t.alive == h.alive[proc := h.endpoint]
    requires t.file.Holds? && t.file.record.proc == proc && t.file.record.endpoint == h.endpoint
    ensures Accounted(t) <==> forall p :: p in h.started ==> p !in h.alive
  {
    forall p | p in h.started && p in h.alive ensures p in t.started && p in t.alive && p != proc {}
  }
}
