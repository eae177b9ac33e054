/** What the history of a delivery run may contain, and how the stored cursor accounts for it. */
module DeliveryHistory {
  import opened Prelude
  import opened Messages
  import opened AppClient
  import opened Bindings
  import opened Subscriptions
  import opened Delivery
  import opened DeliveryInvariant

  /** The surroundings of a history: who is addressed, the log, and every generation so far. */
  datatype Scene = Scene(w: World, log: Log, gens: map<string, Gen>)

  function SceneOf(w: World, s: Sup): Scene { Scene(w, s.log, s.gens) }

  ghost predicate Grows(c: Scene, d: Scene) {
    c.w == d.w && c.log <= d.log && forall g :: g in c.gens ==> g in d.gens && d.gens[g] == c.gens[g]
  }

  ghost predicate IsMessage(c: Scene, i: nat) { i < |c.log| && c.log[i].Line? }

  /** Entry `i` is for generation `g` when the client goes by `nick`. */
  ghost predicate Addressed(c: Scene, nick: string, g: string, i: nat)
    requires g in c.gens
  {
    IsMessage(c, i) && c.w.addressed(c.log[i].msg, nick, c.gens[g].route)
  }

  predicate Passes(e: Event, g: string) { (e.Saved? || e.Filtered?) && e.gen == g }

  ghost predicate Passed(h: seq<Event>, g: string, i: nat) {
    exists p :: 0 <= p < |h| && Passes(h[p], g) && h[p].index == i
  }

  /** Entry `i` is a message that needs nothing more from generation `g`: filtered, or acknowledged
      and persisted. */
  ghost predicate Settled(c: Scene, h: seq<Event>, g: string, i: nat) {
    IsMessage(c, i) && Passed(h, g, i)
  }

  ghost predicate SettledBelow(c: Scene, h: seq<Event>, g: string, end: nat)
    requires g in c.gens
  {
    forall i :: c.gens[g].start <= i < end ==> Settled(c, h, g, i)
  }

  ghost predicate PassedBelow(h: seq<Event>, g: string, end: nat) {
    forall p :: 0 <= p < |h| && Passes(h[p], g) ==> h[p].index < end
  }

  /** Is the last word on generation `g` an unclassified steer error? */
  ghost predicate Suppressed(h: seq<Event>, g: string) {
    h != [] &&
    var e := h[|h| - 1];
    e == Flagged(g) || (!(e.Saved? && e.gen == g) && Suppressed(h[..|h| - 1], g))
  }

  /** May `e` come after the history `h`? */
  ghost predicate Allowed(c: Scene, h: seq<Event>, e: Event) {
    e.gen in c.gens &&
    match e
    case Sent(g, i, nick, d, _) =>
      && c.gens[g].start <= i && Addressed(c, nick, g, i)
      && SettledBelow(c, h, g, i) && PassedBelow(h, g, i)
      && (d.StartIdle? ==> !Suppressed(h, g))
      && (d.StartStale? ==> EndsWith(h, SteerRefused(g, i)))
    case SteerRefused(g, i) => EndsWithSteer(h, g, i)
    case Acked(g, i) => exists nick, d :: EndsWith(h, Sent(g, i, nick, d, true))
    case Saved(g, i) => EndsWith(h, Acked(g, i))
    case Filtered(g, i, nick) =>
      && c.gens[g].start <= i && IsMessage(c, i) && !Addressed(c, nick, g, i)
      && SettledBelow(c, h, g, i) && PassedBelow(h, g, i)
    case Flagged(g) => exists i :: EndsWithSteer(h, g, i)
  }

  ghost predicate Lawful(c: Scene, h: seq<Event>) {
    h != [] ==> Lawful(c, h[..|h| - 1]) && Allowed(c, h[..|h| - 1], h[|h| - 1])
  }

  /** The stored cursor: everything before it is settled, nothing at or after it is. */
  ghost predicate Accounted(c: Scene, stored: Option<Binding>, h: seq<Event>) {
    stored.Some? ==>
      var b := stored.value;
      && b.id in c.gens && SettledBelow(c, h, b.id, b.offset) && PassedBelow(h, b.id, b.offset)
      && b.noStart == Suppressed(h, b.id)
  }

  ghost predicate Inv(w: World, s: Sup) {
    Local(w, s) && Lawful(SceneOf(w, s), s.hist) && Accounted(SceneOf(w, s), s.stored, s.hist)
  }

  // ----- monotonicity -----

  lemma SettledGrows(c: Scene, d: Scene, h: seq<Event>, k: seq<Event>, g: string, end: nat)
    requires Grows(c, d) && h <= k && g in c.gens && SettledBelow(c, h, g, end)
    ensures SettledBelow(d, k, g, end)
  {
    forall i | d.gens[g].start <= i < end ensures Settled(d, k, g, i) {
      assert Settled(c, h, g, i);
      assert c.log[i] == d.log[i];
      var p :| 0 <= p < |h| && Passes(h[p], g) && h[p].index == i;
      assert k[p] == h[p];
    }
  }

  lemma {:induction false} LawfulGrows(c: Scene, d: Scene, h: seq<Event>)
    requires Grows(c, d) && Lawful(c, h)
    ensures Lawful(d, h)
  {
    if h != [] {
      var init, e := h[..|h| - 1], h[|h| - 1];
      LawfulGrows(c, d, init);
      if e.Sent? || e.Filtered? {
        SettledGrows(c, d, init, init, e.gen, e.index);
        assert c.log[e.index] == d.log[e.index];
      }
    }
  }

  lemma {:induction false} LawfulKnows(c: Scene, h: seq<Event>, e: Event)
    requires Lawful(c, h) && e in h
    ensures e.gen in c.gens
  {
    var init := h[..|h| - 1];
    if e != h[|h| - 1] { LawfulKnows(c, init, e); }
  }

  lemma {:induction false} UnknownIsUnsuppressed(c: Scene, h: seq<Event>, g: string)
    requires Lawful(c, h) && g !in c.gens
    ensures !Suppressed(h, g)
  {
    if h != [] { UnknownIsUnsuppressed(c, h[..|h| - 1], g); }
  }

  /** Appending an event that is neither a save, a filtering nor a flag of `g` leaves its account as it is. */
  lemma NoteKeepsAccount(c: Scene, stored: Option<Binding>, h: seq<Event>, e: Event)
    requires Accounted(c, stored, h) && !e.Saved? && !e.Filtered? && !e.Flagged?
    ensures Accounted(c, stored, h + [e])
  {
    if stored.Some? {
      SettledGrows(c, c, h, h + [e], stored.value.id, stored.value.offset);
      assert (h + [e])[..|h|] == h;
    }
  }

  lemma LawfulNote(c: Scene, h: seq<Event>, e: Event)
    requires Lawful(c, h) && Allowed(c, h, e)
    ensures Lawful(c, h + [e])
  {
    assert (h + [e])[..|h|] == h;
  }

  /** Saving or filtering the entry at the cursor settles everything up to just past it. */
  lemma PassingSettles(c: Scene, h: seq<Event>, e: Event)
    requires Passes(e, e.gen) && e.gen in c.gens && IsMessage(c, e.index)
    requires SettledBelow(c, h, e.gen, e.index) && PassedBelow(h, e.gen, e.index)
    ensures SettledBelow(c, h + [e], e.gen, e.index + 1) && PassedBelow(h + [e], e.gen, e.index + 1)
    ensures e.Filtered? ==> Suppressed(h + [e], e.gen) == Suppressed(h, e.gen)
    ensures e.Saved? ==> !Suppressed(h + [e], e.gen)
  {
    var k := h + [e];
    assert k[..|h|] == h && k[|h|] == e;
    SettledGrows(c, c, h, k, e.gen, e.index);
    assert Settled(c, k, e.gen, e.index);
  }

  // ----- the steps that touch the log, the stored binding or the history -----

  lemma AppendAccounts(w: World, s: Sup, entry: Entry<Msg>)
    requires Inv(w, s)
    ensures Inv(w, DoAppend(s, entry))
  {
    AppendKeeps(w, s, entry);
    var c, d := SceneOf(w, s), SceneOf(w, DoAppend(s, entry));
    LawfulGrows(c, d, s.hist);
    if s.stored.Some? { SettledGrows(c, d, s.hist, s.hist, s.stored.value.id, s.stored.value.offset); }
  }

  lemma FilterExitAccounts(w: World, s: Sup, ok: bool)
    requires Inv(w, s) && DoFilterExit(s, ok).Some?
    ensures Inv(w, DoFilterExit(s, ok).value)
  {
    FilterExitKeeps(w, s, ok);
    if ok {
      var g, at := s.worker.snap.id, s.worker.snap.offset;
      var c, e := SceneOf(w, s), Filtered(g, at, s.nick);
      LawfulNote(c, s.hist, e);
      PassingSettles(c, s.hist, e);
    }
  }

  lemma DispatchedAccounts(w: World, s: Sup, written: bool, accepted: bool)
    requires Inv(w, s) && DoDispatched(s, written, accepted).Some?
    ensures Inv(w, DoDispatched(s, written, accepted).value)
  {
    DispatchedKeeps(w, s, written, accepted);
    var e := Sent(s.worker.snap.id, s.worker.snap.offset, s.nick, s.worker.phase.d, accepted);
    LawfulNote(SceneOf(w, s), s.hist, e);
    NoteKeepsAccount(SceneOf(w, s), s.stored, s.hist, e);
  }

  lemma AnswerAccounts(w: World, s: Sup, reply: Reply)
    requires Inv(w, s) && DoAnswer(s, reply).Some?
    ensures Inv(w, DoAnswer(s, reply).value)
  {
    AnswerKeeps(w, s, reply);
    JudgeIs(s.worker.phase.d, reply);
    var v := Judge(s.worker.phase.d, reply);
    if !v.Undelivered? {
      var id, at := s.worker.snap.id, s.worker.snap.offset;
      var e := if v.Delivered? then Acked(id, at) else SteerRefused(id, at);
      assert EndsWith(s.hist, Sent(id, at, s.nick, s.worker.phase.d, s.worker.phase.accepted));
      LawfulNote(SceneOf(w, s), s.hist, e);
      NoteKeepsAccount(SceneOf(w, s), s.stored, s.hist, e);
    }
  }

  /** The same generation, as it was bound. */
  ghost predicate SameBinding(a: Binding, b: Binding) {
    a.id == b.id && a.route == b.route && a.enabled == b.enabled && a.replay == b.replay
  }

  /** From `s` to `t` a failure was stored: the binding is blocked by it, the cursor stays, and the flag
      is set with the history. */
  ghost predicate FailureRecorded(s: Sup, t: Sup, f: Failure)
    requires s.worker.Busy?
  {
    && s.stored.Some? && t.stored.Some?
    && t.stored.value.offset == s.stored.value.offset == s.worker.snap.offset
    && t.hist == s.hist + (if IsUnclassifiedSteer(f) then [Flagged(s.worker.snap.id)] else [])
    && (t.stored.value.noStart <==> s.stored.value.noStart || IsUnclassifiedSteer(f))
    && t.stored.value.blocked && t.stored.value.failure == Some(f) && t.stored.value.state == FailureState(f)
    && SameBinding(t.stored.value, s.stored.value)
  }

  /** What saving a failure changes, and that it changes nothing when the save fails. */
  lemma FailExitRecords(w: World, s: Sup, ok: bool, t: Sup)
    requires Local(w, s) && DoFailExit(s, ok) == Some(t)
    ensures !ok ==> t.stored == s.stored && t.hist == s.hist
    ensures ok ==> FailureRecorded(s, t, s.worker.phase.f)
  {
    if ok && !IsUnclassifiedSteer(s.worker.phase.f) { assert s.hist + [] == s.hist; }
  }

  lemma FailExitAccounts(w: World, s: Sup, ok: bool)
    requires Inv(w, s) && DoFailExit(s, ok).Some?
    ensures Inv(w, DoFailExit(s, ok).value)
  {
    FailExitKeeps(w, s, ok);
    var t := DoFailExit(s, ok).value;
    if ok && IsUnclassifiedSteer(s.worker.phase.f) {
      var e := Flagged(s.worker.snap.id);
      assert EndsWithSteer(s.hist, s.worker.snap.id, s.worker.snap.offset);
      LawfulNote(SceneOf(w, s), s.hist, e);
      SettledGrows(SceneOf(w, s), SceneOf(w, t), s.hist, t.hist, s.stored.value.id, s.stored.value.offset);
    }
  }

  /** From `s` to `t` an acknowledgement was stored: the cursor is past the record, the failure and the
      flag are cleared, and the history has the save. */
  ghost predicate AckRecorded(s: Sup, t: Sup)
    requires s.worker.Busy?
  {
    && s.stored.Some? && t.stored.Some? && t.stored.value.id == s.stored.value.id == s.worker.snap.id
    && t.stored.value.offset == s.stored.value.offset + 1
    && !t.stored.value.noStart && !t.stored.value.blocked && t.stored.value.failure == None
    && t.stored.value.state == "accepted" && SameBinding(t.stored.value, s.stored.value)
    && t.hist == s.hist + [Saved(s.worker.snap.id, s.worker.snap.offset)] && !Suppressed(t.hist, s.worker.snap.id)
  }

  /** What saving an acknowledgement changes, and that it changes nothing when the save fails. */
  lemma AckExitRecords(w: World, s: Sup, ok: bool, t: Sup)
    requires Local(w, s) && DoAckExit(s, ok) == Some(t)
    ensures !ok ==> t.stored == s.stored && t.hist == s.hist
    ensures ok ==> AckRecorded(s, t)
  {
    if ok {
      var e := Saved(s.worker.snap.id, s.worker.snap.offset);
      assert t.hist[..|s.hist|] == s.hist && t.hist[|s.hist|] == e;
    }
  }

  lemma AckExitAccounts(w: World, s: Sup, ok: bool, t: Sup)
    requires Inv(w, s) && DoAckExit(s, ok) == Some(t)
    ensures Inv(w, t)
  {
    AckExitKeeps(w, s, ok);
    if ok {
      var c, g, at := SceneOf(w, s), s.worker.snap.id, s.worker.snap.offset;
      LawfulNote(c, s.hist, Saved(g, at));
      PassingSettles(c, s.hist, Saved(g, at));
    }
  }

  lemma UnbindExitAccounts(w: World, s: Sup, ok: bool)
    requires Inv(w, s) && DoUnbindExit(s, ok).Some?
    ensures Inv(w, DoUnbindExit(s, ok).value)
  {
    UnbindExitKeeps(w, s, ok);
  }

  /** The stored generation is `id`, and the history has nothing about it: no dispatch, no flag. */
  ghost predicate BegunAfresh(s: Sup, id: string) {
    && s.stored.Some? && s.stored.value.id == id && !s.stored.value.noStart
    && forall p :: 0 <= p < |s.hist| ==> s.hist[p].gen != id
  }

  lemma BindExitAccounts(w: World, s: Sup, id: string, probe: Option<Failure>, ok: bool)
    requires Inv(w, s) && DoBindExit(s, id, probe, ok).Some?
    ensures Inv(w, DoBindExit(s, id, probe, ok).value)
    ensures DoBindExit(s, id, probe, ok).value.stored != s.stored ==>
      BegunAfresh(DoBindExit(s, id, probe, ok).value, id)
  {
    BindExitKeeps(w, s, id, probe, ok);
    var c, d := SceneOf(w, s), SceneOf(w, DoBindExit(s, id, probe, ok).value);
    LawfulGrows(c, d, s.hist);
    if s.stored.Some? { SettledGrows(c, d, s.hist, s.hist, s.stored.value.id, s.stored.value.offset); }
    if s.request.Probing? {
      UnknownIsUnsuppressed(c, s.hist, id);
      forall p | 0 <= p < |s.hist| ensures s.hist[p].gen != id { LawfulKnows(c, s.hist, s.hist[p]); }
    }
  }

  // ----- every step, every run -----

  predicate SameBooks(s: Sup, t: Sup) {
    t.log == s.log && t.stored == s.stored && t.gens == s.gens && t.hist == s.hist
  }

  predicate TouchesBooks(l: Label) {
    || l.Append? || l.FilterExit? || l.Dispatched? || l.Answer? || l.FailExit? || l.AckExit?
    || l.UnbindExit? || l.BindExit?
  }

  lemma OtherStepsLeaveBooks(w: World, s: Sup, l: Label)
    requires !TouchesBooks(l) && Step(w, s, l).Some?
    ensures SameBooks(s, Step(w, s, l).value)
  {
  }

  lemma OtherStepsKeep(w: World, s: Sup, l: Label)
    requires !TouchesBooks(l) && Local(w, s) && Step(w, s, l).Some?
    ensures Local(w, Step(w, s, l).value)
  {
    match l
    case Crash(session, nick) => CrashKeeps(w, s, session, nick);
    case Load(ok) => LoadKeeps(w, s, ok);
    case Read(ok) => ReadKeeps(w, s, ok);
    case Leave => LeaveKeeps(w, s);
    case FilterEnter(ok) => FilterEnterKeeps(w, s, ok);
    case LockThread(ok) => LockThreadKeeps(w, s, ok);
    case CheckCurrent(ok) => CheckCurrentKeeps(w, s, ok);
    case Inspect(seen) => InspectKeeps(w, s, seen);
    case Authorize(ok) => AuthorizeKeeps(w, s, ok);
    case Reinspect(seen) => ReinspectKeeps(w, s, seen);
    case FailEnter(ok) => FailEnterKeeps(w, s, ok);
    case AckEnter(ok) => AckEnterKeeps(w, s, ok);
    case UnbindEnter(ok) => UnbindEnterKeeps(w, s, ok);
    case BindEnter(r, loaded, sized) => BindEnterKeeps(w, s, r, loaded, sized);
  }

  lemma OtherStepsKeepInv(w: World, s: Sup, l: Label)
    requires !TouchesBooks(l) && Inv(w, s) && Step(w, s, l).Some?
    ensures Inv(w, Step(w, s, l).value)
  {
    OtherStepsKeep(w, s, l);
    OtherStepsLeaveBooks(w, s, l);
  }

  predicate SettlesRecord(l: Label) { l.FilterExit? || l.FailExit? || l.AckExit? }

  lemma SettlingKeepsInv(w: World, s: Sup, l: Label)
    requires SettlesRecord(l) && Inv(w, s) && Step(w, s, l).Some?
    ensures Inv(w, Step(w, s, l).value)
  {
    if l.FilterExit? { FilterExitAccounts(w, s, l.ok); }
    else if l.FailExit? { FailExitAccounts(w, s, l.ok); }
    else { AckExitAccounts(w, s, l.ok, Step(w, s, l).value); }
  }

  predicate ComesFromOutside(l: Label) { l.Append? || l.UnbindExit? || l.BindExit? }

  lemma OutsideStepsKeepInv(w: World, s: Sup, l: Label)
    requires ComesFromOutside(l) && Inv(w, s) && Step(w, s, l).Some?
    ensures Inv(w, Step(w, s, l).value)
  {
    if l.Append? { AppendAccounts(w, s, l.entry); }
    else if l.UnbindExit? { UnbindExitAccounts(w, s, l.ok); }
    else { BindExitAccounts(w, s, l.id, l.probe, l.ok); }
  }

  /** The invariant is inductive: every label, from every state that has it. */
  lemma StepKeepsInv(w: World, s: Sup, l: Label)
    requires Inv(w, s) && Step(w, s, l).Some?
    ensures Inv(w, Step(w, s, l).value)
  {
    if SettlesRecord(l) { SettlingKeepsInv(w, s, l); }
    else if ComesFromOutside(l) { OutsideStepsKeepInv(w, s, l); }
    else if l.Dispatched? { DispatchedAccounts(w, s, l.written, l.accepted); }
    else if l.Answer? { AnswerAccounts(w, s, l.reply); }
    else { OtherStepsKeepInv(w, s, l); }
  }

  lemma {:induction false} RunKeepsInv(w: World, s: Sup, ls: seq<Label>)
    requires Inv(w, s) && Run(w, s, ls).Some?
    ensures Inv(w, Run(w, s, ls).value)
  {
    if ls != [] {
      var init, last := ls[..|ls| - 1], ls[|ls| - 1];
      RunKeepsInv(w, s, init);
      StepKeepsInv(w, Run(w, s, init).value, last);
    }
  }

  lemma StartHasInv(w: World, nick: string, session: string, log: Log)
    ensures Inv(w, Start(nick, session, log))
  {
  }
}
