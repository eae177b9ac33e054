/** Exactly-once acceptance, on every run in which no acceptance is lost from sight. */
module DeliveryOnce {
  import opened Prelude
  import opened Messages
  import opened AppClient
  import opened Bindings
  import opened Subscriptions
  import opened Delivery
  import opened DeliveryInvariant
  import opened DeliveryHistory
  import opened DeliveryTheorems
  import opened DeliverySafety

  /** How often the thread accepted record `i` from generation `g`. */
  ghost function Accepted(h: seq<Event>, g: string, i: nat): nat {
    if h == [] then 0 else
    var e := h[|h| - 1];
    Accepted(h[..|h| - 1], g, i) + (if e.Sent? && e.gen == g && e.index == i && e.accepted then 1 else 0)
  }

  /** The thread has the text, and the stored cursor does not show it yet. */
  ghost predicate Unrecorded(s: Sup) {
    s.worker.Busy? &&
    match s.worker.phase
    case Awaiting(_, accepted) => accepted
    case Acking => true
    case SavingAck => true
    case _ => false
  }

  /** The ambiguous faults: accepted text whose acknowledgement is lost, garbled or lacks a turn id,
      and a crash or failed save between acceptance and the persisted cursor. Refusals, connection
      failures, unavailable threads and rebinding are not among them. */
  ghost predicate Fault(s: Sup, l: Label) {
    match l
    case Dispatched(written, accepted) => accepted && !written
    case Answer(reply) => Unrecorded(s) && !(reply.Ack? && reply.turn != "")
    case AckEnter(ok) => !ok
    case AckExit(ok) => !ok
    case Crash(_, _) => Unrecorded(s)
    case _ => false
  }

  ghost predicate FaultFree(w: World, s: Sup, ls: seq<Label>)
    requires Run(w, s, ls).Some?
  {
    ls != [] ==>
      var init := ls[..|ls| - 1];
      FaultFree(w, s, init) && !Fault(Run(w, s, init).value, ls[|ls| - 1])
  }

  /** Accepted text is persisted, or about to be, or its generation is over. */
  ghost predicate Tracked(s: Sup, g: string, i: nat) {
    || Saved(g, i) in s.hist || !Live(s, g)
    || (Unrecorded(s) && s.worker.snap.id == g && s.worker.snap.offset == i)
  }

  predicate Filters(e: Event, g: string, i: nat) { e.Filtered? && e.gen == g && e.index == i }

  ghost predicate WasFiltered(h: seq<Event>, g: string, i: nat) { exists p :: 0 <= p < |h| && Filters(h[p], g, i) }

  /** Accepted at most once, followed up if so, and never also filtered. */
  ghost predicate OnceFor(s: Sup, g: string, i: nat) {
    && Accepted(s.hist, g, i) <= 1
    && (Accepted(s.hist, g, i) == 1 ==> Tracked(s, g, i) && !WasFiltered(s.hist, g, i))
  }

  ghost predicate Once(s: Sup) { forall g: string, i: nat :: OnceFor(s, g, i) }

  lemma AcceptedNote(h: seq<Event>, e: Event, g: string, i: nat)
    ensures Accepted(h + [e], g, i)
         == Accepted(h, g, i) + (if e.Sent? && e.gen == g && e.index == i && e.accepted then 1 else 0)
  {
    assert (h + [e])[..|h|] == h;
  }

  lemma {:induction false} UnknownIsUnaccepted(c: Scene, h: seq<Event>, g: string, i: nat)
    requires Lawful(c, h) && g !in c.gens
    ensures Accepted(h, g, i) == 0
  {
    if h != [] { UnknownIsUnaccepted(c, h[..|h| - 1], g, i); }
  }

  lemma {:induction false} AcceptedIfSent(h: seq<Event>, p: nat)
    requires p < |h| && h[p].Sent? && h[p].accepted
    ensures Accepted(h, h[p].gen, h[p].index) >= 1
  {
    if p < |h| - 1 { AcceptedIfSent(h[..|h| - 1], p); }
  }

  lemma DispatchedOnce(w: World, s: Sup, written: bool, accepted: bool, t: Sup)
    requires Inv(w, s) && Once(s) && DoDispatched(s, written, accepted) == Some(t) && (accepted ==> written)
    ensures Once(t)
  {
    var snap := s.worker.snap;
    var e := Sent(snap.id, snap.offset, s.nick, s.worker.phase.d, accepted);
    forall g: string, i: nat ensures OnceFor(t, g, i) {
      assert OnceFor(s, g, i);
      AcceptedNote(s.hist, e, g, i);
      FilteredNote(s.hist, e, g, i);
      if g == snap.id && i == snap.offset {
        NotYetPassed(w, s);
      } else if Accepted(s.hist, g, i) == 1 && Saved(g, i) in s.hist {
        InPrefix(s.hist, [e], Saved(g, i));
      }
    }
  }

  lemma FilteredNote(h: seq<Event>, e: Event, g: string, i: nat)
    ensures WasFiltered(h + [e], g, i) <==> WasFiltered(h, g, i) || Filters(e, g, i)
  {
    var k := h + [e];
    if WasFiltered(h, g, i) {
      var p :| 0 <= p < |h| && Filters(h[p], g, i);
      assert Filters(k[p], g, i);
    }
    if Filters(e, g, i) { assert Filters(k[|h|], g, i); }
  }

  lemma NothingPassedAhead(h: seq<Event>, g: string, end: nat)
    requires PassedBelow(h, g, end)
    ensures Saved(g, end) !in h && !WasFiltered(h, g, end)
  {
    forall p | 0 <= p < |h| ensures h[p] != Saved(g, end) && !Filters(h[p], g, end) {
      assert Passes(h[p], g) ==> h[p].index < end;
    }
  }

  /** The record at the stored cursor has been neither persisted nor filtered. */
  lemma NotYetPassed(w: World, s: Sup)
    requires Inv(w, s) && s.stored.Some?
    ensures Saved(s.stored.value.id, s.stored.value.offset) !in s.hist
    ensures !WasFiltered(s.hist, s.stored.value.id, s.stored.value.offset)
  {
    NothingPassedAhead(s.hist, s.stored.value.id, s.stored.value.offset);
  }

  /** A record that is filtered has not been accepted: had it been, it would be persisted already. */
  lemma FilteredOnce(w: World, s: Sup, t: Sup)
    requires Inv(w, s) && Once(s) && DoFilterExit(s, true) == Some(t)
    ensures forall g: string, i: nat :: Accepted(t.hist, g, i) == 1 ==> !WasFiltered(t.hist, g, i)
  {
    FilteringIsOfTheMoment(w, s, t);
    NotYetPassed(w, s);
    var id, at := s.stored.value.id, s.stored.value.offset;
    forall g: string, i: nat | Accepted(t.hist, g, i) == 1 ensures !WasFiltered(t.hist, g, i) {
      AcceptedNote(s.hist, Filtered(id, at, s.nick), g, i);
      FilteredNote(s.hist, Filtered(id, at, s.nick), g, i);
      assert OnceFor(s, g, i);
    }
  }

  /** Text the thread has accepted stays in sight until its cursor is persisted. */
  lemma UnrecordedStep(w: World, s: Sup, l: Label, t: Sup)
    requires Local(w, s) && Unrecorded(s) && !Fault(s, l) && Step(w, s, l) == Some(t)
    ensures var snap := s.worker.snap;
      || (Unrecorded(t) && t.worker.snap == snap)
      || EndsWith(t.hist, Saved(snap.id, snap.offset))
      || !Live(t, snap.id)
  {
    if l.Answer? { JudgeIs(s.worker.phase.d, l.reply); }
  }

  lemma EventsStay(h: seq<Event>, k: seq<Event>, e: Event)
    requires h <= k && e in h
    ensures e in k
  {
    assert k == h + k[|h|..];
    InPrefix(h, k[|h|..], e);
  }

  lemma OverStaysOver(w: World, s: Sup, l: Label, t: Sup, g: string, i: nat)
    requires Inv(w, s) && Step(w, s, l) == Some(t) && Accepted(s.hist, g, i) == 1 && !Live(s, g)
    ensures !Live(t, g)
  {
    if g !in s.gens { UnknownIsUnaccepted(SceneOf(w, s), s.hist, g, i); }
    if Live(t, g) { OnlyFreshComesAlive(w, s, l, g); }
  }

  lemma TrackedStep(w: World, s: Sup, l: Label, t: Sup, g: string, i: nat)
    requires Inv(w, s) && !Fault(s, l) && Step(w, s, l) == Some(t)
    requires Accepted(s.hist, g, i) == 1 && Tracked(s, g, i)
    ensures Tracked(t, g, i)
  {
    StepGrows(w, s, l);
    if Saved(g, i) in s.hist { EventsStay(s.hist, t.hist, Saved(g, i)); }
    else if !Live(s, g) { OverStaysOver(w, s, l, t, g, i); }
    else { UnrecordedStep(w, s, l, t); }
  }

  lemma QuietAccepts(w: World, s: Sup, l: Label, t: Sup, g: string, i: nat)
    requires !l.Dispatched? && Step(w, s, l) == Some(t)
    ensures Accepted(t.hist, g, i) == Accepted(s.hist, g, i)
    ensures !l.FilterExit? ==> (WasFiltered(t.hist, g, i) <==> WasFiltered(s.hist, g, i))
  {
    OnlyDispatchSends(w, s, l);
    if |t.hist| > |s.hist| {
      var e := t.hist[|s.hist|];
      assert t.hist == s.hist + [e];
      AcceptedNote(s.hist, e, g, i);
      FilteredNote(s.hist, e, g, i);
    } else {
      assert t.hist == s.hist;
    }
  }

  lemma StepOnce(w: World, s: Sup, l: Label, t: Sup)
    requires Inv(w, s) && Once(s) && !Fault(s, l) && Step(w, s, l) == Some(t)
    ensures Once(t)
  {
    if l.Dispatched? {
      DispatchedOnce(w, s, l.written, l.accepted, t);
    } else {
      if l == FilterExit(true) { FilteredOnce(w, s, t); }
      forall g: string, i: nat ensures OnceFor(t, g, i) {
        assert OnceFor(s, g, i);
        QuietAccepts(w, s, l, t, g, i);
        if l == FilterExit(false) { assert t.hist == s.hist; }
        if Accepted(s.hist, g, i) == 1 { TrackedStep(w, s, l, t, g, i); }
      }
    }
  }

  lemma {:induction false} RunOnce(w: World, s: Sup, ls: seq<Label>)
    requires Inv(w, s) && Once(s) && Run(w, s, ls).Some? && FaultFree(w, s, ls)
    ensures Once(Run(w, s, ls).value)
  {
    if ls != [] {
      var init, last := ls[..|ls| - 1], ls[|ls| - 1];
      RunOnce(w, s, init);
      RunKeepsInv(w, s, init);
      StepOnce(w, Run(w, s, init).value, last, Run(w, s, ls).value);
    }
  }

  /** Either the thread accepted entry `i` exactly once and it was never filtered, or it was filtered
      under a name for which it is not meant and never accepted. */
  ghost predicate OnceOrFiltered(c: Scene, h: seq<Event>, g: string, i: nat)
    requires g in c.gens
  {
    || (Accepted(h, g, i) == 1 && !WasFiltered(h, g, i))
    || (Accepted(h, g, i) == 0 && exists nick :: Filtered(g, i, nick) in h && !Addressed(c, nick, g, i))
  }

  /** On a run without ambiguous faults no generation has a record accepted twice, and every entry
      that the stored cursor has passed was accepted exactly once or filtered, and not both. */
  lemma ExactlyOnce(w: World, nick: string, session: string, log: Log, ls: seq<Label>, s: Sup)
    requires Run(w, Start(nick, session, log), ls) == Some(s)
    requires FaultFree(w, Start(nick, session, log), ls)
    ensures forall g: string, i: nat :: Accepted(s.hist, g, i) <= 1
    ensures s.stored.Some? ==>
      var b := s.stored.value;
      && b.id in s.gens && b.offset <= |s.log|
      && forall i: nat :: s.gens[b.id].start <= i < b.offset ==> OnceOrFiltered(SceneOf(w, s), s.hist, b.id, i)
  {
    StartHasInv(w, nick, session, log);
    RunKeepsInv(w, Start(nick, session, log), ls);
    RunOnce(w, Start(nick, session, log), ls);
    forall g: string, i: nat ensures Accepted(s.hist, g, i) <= 1 { assert OnceFor(s, g, i); }
    if s.stored.Some? {
      var b := s.stored.value;
      forall i: nat | s.gens[b.id].start <= i < b.offset ensures OnceOrFiltered(SceneOf(w, s), s.hist, b.id, i) {
        assert Settled(SceneOf(w, s), s.hist, b.id, i);
        PassedOnce(w, s, b.id, i);
      }
    }
  }

  lemma PassedOnce(w: World, s: Sup, g: string, i: nat)
    requires Inv(w, s) && Once(s) && g in s.gens && Passed(s.hist, g, i)
    ensures OnceOrFiltered(SceneOf(w, s), s.hist, g, i)
  {
    var c := SceneOf(w, s);
    assert OnceFor(s, g, i);
    PassedIsAckedOrFiltered(c, s.hist, g, i);
    if Saved(g, i) in s.hist {
      PassedWasAccepted(c, s.hist, g, i);
    } else {
      var nick :| Filtered(g, i, nick) in s.hist && !Addressed(c, nick, g, i);
      var p :| 0 <= p < |s.hist| && s.hist[p] == Filtered(g, i, nick);
      assert Filters(s.hist[p], g, i);
    }
  }

  lemma PassedWasAccepted(c: Scene, h: seq<Event>, g: string, i: nat)
    requires Lawful(c, h) && Saved(g, i) in h
    ensures Accepted(h, g, i) >= 1
  {
    var p :| 0 <= p < |h| && h[p] == Saved(g, i);
    SavedWasAcked(c, h, p);
    AcceptedIfSent(h, p - 2);
  }
}
