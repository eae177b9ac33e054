/** What the app-server manager promises, and exactly when a failing ps makes it break its promises. */
module ServiceTheorems {
  import opened Prelude
  import opened Service

  /** Over any interleaving of ensure calls in which ps does no harm, at most one server they started is
      alive; and while nobody is inside, it is the recorded one. */
  lemma AtMostOneServer(endpoint: string, file: RecordFile, alive: map<Proc, string>, moves: seq<(nat, Label)>, h: Home,
                        p: Proc, q: Proc)
    requires Run(Fresh(endpoint, file, alive), moves) == Some(h) && Harmless(Fresh(endpoint, file, alive), moves)
    requires p in h.started && p in h.alive && q in h.started && q in h.alive
    ensures p == q && (h.lock.None? ==> RecordedIs(h, p))
  {
    RunKeepsInv(Fresh(endpoint, file, alive), moves, h);
  }

  /** Once the recorded process has been looked for and not seen, every server started here is dead. */
  lemma ClearMeansAlone(h: Home)
    requires Inv(h) && Current(h).Clear?
    ensures forall p :: p in h.started ==> p !in h.alive
  {
  }

  // ----- the recorded process -----

  /** A call that may go on to start a server has no living process on record. */
  ghost predicate Unrecorded(h: Home) {
    Current(h).Clear? && h.file.Holds? ==> !Matches(h, h.file.record)
  }

  /** A call's copy of the record is the record. */
  ghost predicate CopyIsRecord(h: Home) {
    Current(h).HasRecord? ==> Current(h).record == (if h.file.Holds? then Some(h.file.record) else None)
  }

  ghost predicate AlwaysUnrecorded(h: Home, moves: seq<(nat, Label)>)
    requires Run(h, moves).Some?
  {
    Unrecorded(Run(h, moves).value) && (moves != [] ==> AlwaysUnrecorded(h, moves[..|moves| - 1]))
  }

  ghost predicate NoneOverlooked(h: Home, moves: seq<(nat, Label)>)
    requires Run(h, moves).Some?
  {
    moves != [] ==>
      var init, last := moves[..|moves| - 1], moves[|moves| - 1];
      NoneOverlooked(h, init) && !Overlooks(Run(h, init).value, last.0, last.1)
  }

  lemma CopyStep(h: Home, k: nat, l: Label, t: Home)
    requires Exclusive(h) && CopyIsRecord(h) && Step(h, k, l) == Some(t)
    ensures CopyIsRecord(t)
  {
  }

  lemma UnrecordedStep(h: Home, k: nat, l: Label, t: Home)
    requires Exclusive(h) && CopyIsRecord(h) && Unrecorded(h) && Step(h, k, l) == Some(t)
    ensures Unrecorded(t) <==> !Overlooks(h, k, l)
  {
    if k < |h.calls| && Inside(h.calls[k]) { assert h.lock == Some(k); }
  }

  lemma {:induction false} RunKeepsCopy(h: Home, moves: seq<(nat, Label)>, g: Home)
    requires Exclusive(h) && CopyIsRecord(h) && Run(h, moves) == Some(g)
    ensures Exclusive(g) && CopyIsRecord(g)
  {
    if moves != [] {
      var init, last := moves[..|moves| - 1], moves[|moves| - 1];
      var m := Run(h, init).value;
      RunKeepsCopy(h, init, m);
      ExclusiveStep(m, last.0, last.1);
      CopyStep(m, last.0, last.1, g);
    }
  }

  /** All along a run nobody prepares to start a server while the recorded process lives, if and only if
      ps never fails to answer for that process when it is looked for. */
  lemma {:induction false} OverlookedExactly(endpoint: string, file: RecordFile, alive: map<Proc, string>,
                                             moves: seq<(nat, Label)>, h: Home)
    requires Run(Fresh(endpoint, file, alive), moves) == Some(h)
    ensures AlwaysUnrecorded(Fresh(endpoint, file, alive), moves)
      <==> NoneOverlooked(Fresh(endpoint, file, alive), moves)
  {
    var start := Fresh(endpoint, file, alive);
    if moves != [] {
      var init, last := moves[..|moves| - 1], moves[|moves| - 1];
      var m := Run(start, init).value;
      OverlookedExactly(endpoint, file, alive, init, m);
      RunKeepsCopy(start, init, m);
      if AlwaysUnrecorded(start, init) { UnrecordedStep(m, last.0, last.1, h); }
    }
  }

  lemma UnrecordedNow(endpoint: string, file: RecordFile, alive: map<Proc, string>, moves: seq<(nat, Label)>, h: Home)
    requires Run(Fresh(endpoint, file, alive), moves) == Some(h) && NoneOverlooked(Fresh(endpoint, file, alive), moves)
    ensures Unrecorded(h)
  {
    OverlookedExactly(endpoint, file, alive, moves, h);
  }

  lemma SpawnNeedsClear(h: Home, k: nat, proc: Proc)
    requires Exclusive(h) && Step(h, k, Spawn(proc, true)).Some?
    ensures h.lock == Some(k) && Current(h).Clear?
  {
    assert Inside(h.calls[k]);
  }

  /** A server is started only by the holder of the lock, and only when no server started before is
      alive, nor, if ps has always answered for it when it was looked for, the recorded process. */
  lemma SpawnsOnlyAlone(endpoint: string, file: RecordFile, alive: map<Proc, string>, moves: seq<(nat, Label)>, h: Home,
                        k: nat, proc: Proc)
    requires Run(Fresh(endpoint, file, alive), moves) == Some(h) && Harmless(Fresh(endpoint, file, alive), moves)
    requires Step(h, k, Spawn(proc, true)).Some?
    ensures h.lock == Some(k) && forall p :: p in h.started ==> p !in h.alive
    ensures NoneOverlooked(Fresh(endpoint, file, alive), moves) && h.file.Holds? ==> !Matches(h, h.file.record)
  {
    RunKeepsInv(Fresh(endpoint, file, alive), moves, h);
    SpawnNeedsClear(h, k, proc);
    ClearMeansAlone(h);
    if NoneOverlooked(Fresh(endpoint, file, alive), moves) { UnrecordedNow(endpoint, file, alive, moves, h); }
  }

  // ----- servers left behind -----

  /** Every call that fails after starting a server has it dead by the time it goes to release the lock. */
  ghost predicate FailsClean(h: Home) {
    forall k :: 0 <= k < |h.calls| && h.calls[k].Leaving? && h.calls[k].reply == Failed && h.calls[k].spawned.Some? ==>
      h.calls[k].spawned.value !in h.alive
  }

  ghost predicate AlwaysFailsClean(h: Home, moves: seq<(nat, Label)>)
    requires Run(h, moves).Some?
  {
    FailsClean(Run(h, moves).value) && (moves != [] ==> AlwaysFailsClean(h, moves[..|moves| - 1]))
  }

  ghost predicate NoneLeftBehind(h: Home, moves: seq<(nat, Label)>)
    requires Run(h, moves).Some?
  {
    moves != [] ==>
      var init, last := moves[..|moves| - 1], moves[|moves| - 1];
      NoneLeftBehind(h, init) && !LeavesBehind(Run(h, init).value, last.0, last.1)
  }

  lemma LeftBehindStep(h: Home, k: nat, l: Label, t: Home)
    requires LeavesBehind(h, k, l) && Step(h, k, l) == Some(t)
    ensures !FailsClean(t)
  {
    assert t.calls[k] == Leaving(Failed, Some(Own(h.calls[k]).value));
  }

  lemma CleanStep(h: Home, k: nat, l: Label, t: Home)
    requires Exclusive(h) && FailsClean(h) && !LeavesBehind(h, k, l) && Step(h, k, l) == Some(t)
    ensures FailsClean(t)
  {
    forall j | 0 <= j < |t.calls| && t.calls[j].Leaving? && t.calls[j].reply == Failed && t.calls[j].spawned.Some?
      ensures t.calls[j].spawned.value !in t.alive
    {
      if j < |h.calls| && Inside(h.calls[j]) { assert h.lock == Some(j); }
      if k < |h.calls| && Inside(h.calls[k]) { assert h.lock == Some(k); }
    }
  }

  lemma {:induction false} RunKeepsExclusive(h: Home, moves: seq<(nat, Label)>, g: Home)
    requires Exclusive(h) && Run(h, moves) == Some(g)
    ensures Exclusive(g)
  {
    if moves != [] {
      var init, last := moves[..|moves| - 1], moves[|moves| - 1];
      RunKeepsExclusive(h, init, Run(h, init).value);
      ExclusiveStep(Run(h, init).value, last.0, last.1);
    }
  }

  /** All along a run failing calls leave no server behind, if and only if ps never fails to answer for
      a living server of the call's own: for its start time, or when it is to be stopped. */
  lemma {:induction false} FailureLeavesNoServer(endpoint: string, file: RecordFile, alive: map<Proc, string>,
                                                 moves: seq<(nat, Label)>, h: Home)
    requires Run(Fresh(endpoint, file, alive), moves) == Some(h)
    ensures AlwaysFailsClean(Fresh(endpoint, file, alive), moves)
      <==> NoneLeftBehind(Fresh(endpoint, file, alive), moves)
  {
    var start := Fresh(endpoint, file, alive);
    if moves != [] {
      var init, last := moves[..|moves| - 1], moves[|moves| - 1];
      var m := Run(start, init).value;
      FailureLeavesNoServer(endpoint, file, alive, init, m);
      RunKeepsExclusive(start, init, m);
      if LeavesBehind(m, last.0, last.1) {
        LeftBehindStep(m, last.0, last.1, h);
      } else if AlwaysFailsClean(start, init) {
        CleanStep(m, last.0, last.1, h);
      }
    }
  }

  // ----- two servers -----

  ghost predicate TwoAlive(h: Home) {
    exists p, q :: p != q && p in h.started && p in h.alive && q in h.started && q in h.alive
  }

  /** Two servers may come to live at once although ps does no more harm. */
  ghost predicate MayReachTwo(h: Home) {
    exists more, t :: Run(h, more) == Some(t) && Harmless(h, more) && TwoAlive(t)
  }

  ghost predicate NeverTwo(h: Home, moves: seq<(nat, Label)>)
    requires Run(h, moves).Some?
  {
    !MayReachTwo(Run(h, moves).value) && (moves != [] ==> NeverTwo(h, moves[..|moves| - 1]))
  }

  lemma OneFromInv(h: Home)
    requires Inv(h)
    ensures !MayReachTwo(h)
  {
    forall more, t | Run(h, more) == Some(t) && Harmless(h, more) ensures !TwoAlive(t) { RunKeepsInv(h, more, t); }
  }

  lemma Snoc(h: Home, moves: seq<(nat, Label)>, m: Home, k: nat, l: Label)
    requires Run(h, moves) == Some(m) && Harmless(h, moves) && Step(m, k, l).Some? && !Harmful(m, k, l)
    ensures Run(h, moves + [(k, l)]) == Step(m, k, l) && Harmless(h, moves + [(k, l)])
  {
    assert (moves + [(k, l)])[..|moves|] == moves;
  }

  lemma {:induction false} Above(s: set<nat>) returns (bound: nat)
    ensures forall x :: x in s ==> x < bound
  {
    if s == {} { return 0; }
    var x :| x in s;
    var rest := Above(s - {x});
    bound := if x < rest then rest else x + 1;
    forall y | y in s ensures y < bound { if y != x { assert y in s - {x}; } }
  }

  /** No process of this name has been heard of. */
  ghost predicate Unknown(h: Home, proc: Proc) {
    proc !in h.alive && proc !in h.started && (h.file.Holds? ==> h.file.record.proc != proc)
  }

  lemma AnUnknownProcess(h: Home) returns (proc: Proc)
    ensures Unknown(h, proc)
  {
    proc := Above(h.alive.Keys + h.started + (if h.file.Holds? then {h.file.record.proc} else {}));
  }

  /** What lets a call go on to start a server: a readable record file that names no living server. */
  ghost predicate NothingOnRecord(h: Home) {
    !h.file.Invalid? && (h.file.Holds? ==> !Matches(h, h.file.record))
  }

  /** A call that takes the lock gets as far as starting a server when nothing is on record. */
  lemma SpawnPath(h: Home, before: seq<(nat, Label)>, m: Home, k: nat, proc: Proc)
    returns (moves: seq<(nat, Label)>, t: Home)
    requires Run(h, before) == Some(m) && Harmless(h, before)
    requires m.lock.None? && NothingOnRecord(m) && Unknown(m, proc) && k < |m.calls| && m.calls[k].Waiting?
    ensures Run(h, moves) == Some(t) && Harmless(h, moves)
    ensures t.alive == m.alive[proc := m.endpoint] && t.started == m.started + {proc} && t.file == m.file
    ensures t == With(m, k, Spawned(proc)).(lock := Some(k), alive := t.alive, started := t.started)
  {
    var m1 := With(m, k, Entered).(lock := Some(k));
    var m2 := With(m1, k, HasRecord(if m.file.Holds? then Some(m.file.record) else None));
    var m3 := With(m2, k, Clear);
    Snoc(h, before, m, k, Enter);
    var s1 := before + [(k, Enter)];
    Snoc(h, s1, m1, k, ReadRecord);
    var s2 := s1 + [(k, ReadRecord)];
    Snoc(h, s2, m2, k, Probe(None, false, true));
    var s3 := s2 + [(k, Probe(None, false, true))];
    Snoc(h, s3, m3, k, Spawn(proc, true));
    moves := s3 + [(k, Spawn(proc, true))];
    t := Step(m3, k, Spawn(proc, true)).value;
  }

  /** A call that has started a server is past an unreadable record file. */
  ghost predicate Readable(h: Home) {
    (Current(h).HasRecord? || Current(h).Clear? || Own(Current(h)).Some?) ==> !h.file.Invalid?
  }

  lemma {:induction false} RunKeepsReadable(h: Home, moves: seq<(nat, Label)>, g: Home)
    requires Exclusive(h) && Readable(h) && Run(h, moves) == Some(g)
    ensures Exclusive(g) && Readable(g)
  {
    if moves != [] {
      var init, last := moves[..|moves| - 1], moves[|moves| - 1];
      var m := Run(h, init).value;
      RunKeepsReadable(h, init, m);
      ExclusiveStep(m, last.0, last.1);
      ReadableStep(m, last.0, last.1);
    }
  }

  lemma ReadableStep(h: Home, k: nat, l: Label)
    requires Exclusive(h) && Readable(h) && Step(h, k, l).Some?
    ensures Readable(Step(h, k, l).value)
  {
  }

  /** After an own server has been overlooked the call starts another beside it. */
  lemma OverlookedAdmitsTwo(m: Home, k: nat, l: Label, h: Home)
    requires Inv(m) && Step(m, k, l) == Some(h) && Overlooks(m, k, l) && m.calls[k].record.value.proc in m.started
    ensures MayReachTwo(h)
  {
    assert Inside(m.calls[k]) && m.lock == Some(k);
    var p := m.calls[k].record.value.proc;
    var q := AnUnknownProcess(h);
    Snoc(h, [], h, k, Spawn(q, true));
    var t := Step(h, k, Spawn(q, true)).value;
    assert p != q && p in t.started && p in t.alive && q in t.started && q in t.alive;
    assert Run(h, [] + [(k, Spawn(q, true))]) == Some(t);
  }

  /** What there is right after a server has been left behind. */
  ghost predicate Abandoned(h: Home, k: nat, p: Proc) {
    && k < |h.calls| && h.calls[k] == Leaving(Failed, Some(p)) && h.lock == Some(k)
    && p in h.started && p in h.alive && !h.file.Invalid? && (h.file.Holds? ==> h.file.record.proc != p)
  }

  lemma LeftBehindIsAbandoned(m: Home, k: nat, l: Label, h: Home)
    requires Inv(m) && Readable(m) && Step(m, k, l) == Some(h) && LeavesBehind(m, k, l)
    ensures Own(m.calls[k]).Some? && Abandoned(h, k, Own(m.calls[k]).value)
  {
    assert Inside(m.calls[k]) && m.lock == Some(k);
  }

  /** The lock is released, another call arrives, and the recorded process, if there is one, dies. */
  lemma NextCallPath(h: Home, k: nat, p: Proc) returns (moves: seq<(nat, Label)>, t: Home)
    requires Abandoned(h, k, p)
    ensures Run(h, moves) == Some(t) && Harmless(h, moves)
    ensures t.lock.None? && NothingOnRecord(t) && p in t.started && p in t.alive && t.file == h.file
    ensures |t.calls| == |h.calls| + 1 && t.calls[|h.calls|] == Waiting
  {
    var h1 := Step(h, k, Leave).value;
    var h2 := Step(h1, k, Arrives).value;
    Snoc(h, [], h, k, Leave);
    Snoc(h, [] + [(k, Leave)], h1, k, Arrives);
    moves, t := [] + [(k, Leave)] + [(k, Arrives)], h2;
    if h.file.Holds? {
      Snoc(h, moves, h2, k, Dies(h.file.record.proc));
      moves, t := moves + [(k, Dies(h.file.record.proc))], Step(h2, k, Dies(h.file.record.proc)).value;
    }
  }

  /** After a server has been left behind the next call starts another: the first is not on record. */
  lemma AbandonedAdmitsTwo(h: Home, k: nat, p: Proc)
    requires Abandoned(h, k, p)
    ensures MayReachTwo(h)
  {
    var before, m := NextCallPath(h, k, p);
    var q := AnUnknownProcess(m);
    var more, t := SpawnPath(h, before, m, |h.calls|, q);
    assert p != q && p in t.started && p in t.alive && q in t.started && q in t.alive;
  }

  /** All along a run it takes a further harm to come to two living servers, if and only if there has
      been none so far: ps has always answered for a living server of ours when the call that looked for
      it on record, or meant to name or stop it, depended on the answer. */
  lemma {:induction false} OneServerExactly(endpoint: string, file: RecordFile, alive: map<Proc, string>,
                                            moves: seq<(nat, Label)>, h: Home)
    requires Run(Fresh(endpoint, file, alive), moves) == Some(h)
    ensures NeverTwo(Fresh(endpoint, file, alive), moves) <==> Harmless(Fresh(endpoint, file, alive), moves)
  {
    var start := Fresh(endpoint, file, alive);
    if Harmless(start, moves) {
      RunKeepsInv(start, moves, h);
      OneFromInv(h);
    }
    if moves != [] {
      var init, last := moves[..|moves| - 1], moves[|moves| - 1];
      var m := Run(start, init).value;
      OneServerExactly(endpoint, file, alive, init, m);
      if Harmless(start, init) && Harmful(m, last.0, last.1) {
        RunKeepsInv(start, init, m);
        RunKeepsReadable(start, init, m);
        HarmAdmitsTwo(m, last.0, last.1, h);
      }
    }
  }

  lemma HarmAdmitsTwo(m: Home, k: nat, l: Label, h: Home)
    requires Inv(m) && Readable(m) && Step(m, k, l) == Some(h) && Harmful(m, k, l)
    ensures MayReachTwo(h)
  {
    if LeavesBehind(m, k, l) {
      LeftBehindIsAbandoned(m, k, l, h);
      AbandonedAdmitsTwo(h, k, Own(m.calls[k]).value);
    } else {
      OverlookedAdmitsTwo(m, k, l, h);
    }
  }

  /** The first call on an untouched home, up to the server it starts. */
  lemma FirstSpawn(endpoint: string, p: Proc) returns (moves: seq<(nat, Label)>, h: Home)
    ensures Run(Fresh(endpoint, Absent, map[]), moves) == Some(h) && Harmless(Fresh(endpoint, Absent, map[]), moves)
    ensures h == Home(endpoint, map[p := endpoint], {p}, Absent, Some(0), [Spawned(p)])
  {
    var start := Fresh(endpoint, Absent, map[]);
    var arrived := start.(calls := [Waiting]);
    assert start.calls + [Waiting] == [Waiting];
    Snoc(start, [], start, 0, Arrives);
    moves, h := SpawnPath(start, [] + [(0, Arrives)], arrived, 0, p);
    assert h.calls == [Spawned(p)];
  }

  /** One missing answer is enough: on an untouched home, a first call that starts a server and cannot
      learn its start time leads to a state from which a second server can be started beside it. */
  lemma OneMissingAnswer(endpoint: string, p: Proc) returns (moves: seq<(nat, Label)>, h: Home)
    ensures Run(Fresh(endpoint, Absent, map[]), moves) == Some(h) && p in h.started && p in h.alive
    ensures moves != [] && moves[|moves| - 1] == (0, Fingerprint(false)) && MayReachTwo(h)
  {
    var before, m := FirstSpawn(endpoint, p);
    moves := before + [(0, Fingerprint(false))];
    assert moves[..|before|] == before;
    h := m.(calls := [Leaving(Failed, Some(p))]);
    assert m.calls[0 := Leaving(Failed, Some(p))] == h.calls;
    assert Step(m, 0, Fingerprint(false)) == Some(h);
    AbandonedAdmitsTwo(h, 0, p);
  }

  // ----- success -----

  /** What a successful call has done, on every run. */
  ghost predicate Recorded(h: Home) {
    var p := Current(h);
    && (Own(p).Some? ==> Own(p).value in h.started)
    && (p.Leaving? && p.reply.Started? ==> RecordedIs(h, p.reply.proc) && p.reply.proc in h.started)
  }

  lemma RecordedStep(h: Home, k: nat, l: Label)
    requires Exclusive(h) && Recorded(h) && Step(h, k, l).Some?
    ensures Recorded(Step(h, k, l).value)
  {
  }

  lemma {:induction false} RunKeepsRecorded(h: Home, moves: seq<(nat, Label)>, g: Home)
    requires Exclusive(h) && Recorded(h) && Run(h, moves) == Some(g)
    ensures Exclusive(g) && Recorded(g)
  {
    if moves != [] {
      var init, last := moves[..|moves| - 1], moves[|moves| - 1];
      var m := Run(h, init).value;
      RunKeepsRecorded(h, init, m);
      ExclusiveStep(m, last.0, last.1);
      RecordedStep(m, last.0, last.1);
    }
  }

  /** A call that reports having started a server leaves with that server on record. */
  lemma SuccessIsRecorded(endpoint: string, file: RecordFile, alive: map<Proc, string>, moves: seq<(nat, Label)>,
                          h: Home, k: nat, proc: Proc, spawned: Option<Proc>)
    requires Run(Fresh(endpoint, file, alive), moves) == Some(h)
    requires k < |h.calls| && h.calls[k] == Leaving(Started(proc), spawned)
    ensures h.lock == Some(k) && RecordedIs(h, proc) && proc in h.started
  {
    RunKeepsRecorded(Fresh(endpoint, file, alive), moves, h);
    assert Inside(h.calls[k]);
  }
}
