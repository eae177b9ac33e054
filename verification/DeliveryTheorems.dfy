/** The promises of the delivery protocol, over every run of one supervisor. */
module DeliveryTheorems {
  import opened Prelude
  import opened Messages
  import opened AppClient
  import opened Bindings
  import opened Subscriptions
  import opened Delivery
  import opened DeliveryInvariant
  import opened DeliveryHistory

  // ----- reading a lawful history -----

  lemma {:induction false} LawfulAt(c: Scene, h: seq<Event>, p: nat)
    requires Lawful(c, h) && p < |h|
    ensures Lawful(c, h[..p]) && Allowed(c, h[..p], h[p])
  {
    var init := h[..|h| - 1];
    if p < |init| {
      LawfulAt(c, init, p);
      assert init[..p] == h[..p];
    }
  }

  /** A persisted record was acknowledged right before, for a dispatch the thread accepted. */
  lemma SavedWasAcked(c: Scene, h: seq<Event>, p: nat)
    requires Lawful(c, h) && p < |h| && h[p].Saved?
    ensures p >= 2 && h[p - 1] == Acked(h[p].gen, h[p].index)
    ensures exists nick, d :: h[p - 2] == Sent(h[p].gen, h[p].index, nick, d, true)
  {
    LawfulAt(c, h, p);
    LawfulAt(c, h, p - 1);
  }

  /** What it takes for the cursor to move past entry `i`: an acknowledgement that was persisted, or a
      filtering under a name for which the entry is not meant. */
  ghost predicate AckedOrFiltered(c: Scene, h: seq<Event>, g: string, i: nat)
    requires g in c.gens
  {
    || (Acked(g, i) in h && Saved(g, i) in h)
    || exists nick :: Filtered(g, i, nick) in h && !Addressed(c, nick, g, i)
  }

  lemma PassedIsAckedOrFiltered(c: Scene, h: seq<Event>, g: string, i: nat)
    requires Lawful(c, h) && g in c.gens && Passed(h, g, i)
    ensures AckedOrFiltered(c, h, g, i)
  {
    var p :| 0 <= p < |h| && Passes(h[p], g) && h[p].index == i;
    LawfulAt(c, h, p);
    if h[p].Saved? {
      SavedWasAcked(c, h, p);
      assert h[p] == Saved(g, i) && h[p - 1] == Acked(g, i);
    } else {
      assert h[p] == Filtered(g, i, h[p].nick);
    }
  }

  ghost predicate SentFor(e: Event, g: string) { e.Sent? && e.gen == g }

  lemma PassingsStay(h: seq<Event>, p: nat, q: nat, g: string, i: nat)
    requires p <= q <= |h| && Passed(h[..p], g, i)
    ensures Passed(h[..q], g, i)
  {
    var k :| 0 <= k < p && Passes(h[..p][k], g) && h[..p][k].index == i;
    assert h[..q][k] == h[..p][k];
  }

  /** If entry `j` were settled by `p` and the cursor still at `j` by `q`, it would lie before itself. */
  lemma NothingSettledIsAhead(c: Scene, h: seq<Event>, g: string, start: nat, end: nat, p: nat, q: nat, j: nat)
    requires g in c.gens && p <= q <= |h| && c.gens[g].start == start <= j
    requires SettledBelow(c, h[..p], g, end) && PassedBelow(h[..q], g, j)
    ensures end <= j
  {
    if j < end {
      assert Settled(c, h[..p], g, j);
      PassingsStay(h, p, q, g, j);
    }
  }

  lemma LaterSendIsNotEarlier(c: Scene, h: seq<Event>, p: nat, q: nat)
    requires Lawful(c, h) && p < q < |h| && h[p].Sent? && SentFor(h[q], h[p].gen)
    ensures h[p].index <= h[q].index
  {
    LawfulAt(c, h, p);
    LawfulAt(c, h, q);
    NothingSettledIsAhead(c, h, h[p].gen, c.gens[h[p].gen].start, h[p].index, p, q, h[q].index);
  }

  /** The dispatch at `q`: of a record meant for its generation under the name of that moment, with
      every earlier entry, back to where the generation started, filtered or acknowledged before. */
  ghost predicate InTurn(c: Scene, h: seq<Event>, q: nat)
    requires q < |h| && h[q].Sent?
  {
    var g, i := h[q].gen, h[q].index;
    && g in c.gens && c.gens[g].start <= i && Addressed(c, h[q].nick, g, i)
    && forall j :: c.gens[g].start <= j < i ==> IsMessage(c, j) && AckedOrFiltered(c, h[..q], g, j)
  }

  lemma SendIsInTurn(c: Scene, h: seq<Event>, q: nat)
    requires Lawful(c, h) && q < |h| && h[q].Sent?
    ensures InTurn(c, h, q)
  {
    LawfulAt(c, h, q);
    var g, i := h[q].gen, h[q].index;
    forall j | c.gens[g].start <= j < i ensures IsMessage(c, j) && AckedOrFiltered(c, h[..q], g, j) {
      assert Settled(c, h[..q], g, j);
      PassedIsAckedOrFiltered(c, h[..q], g, j);
    }
  }

  /** Dispatches of one generation follow the log, repeating only the record just tried; and each is
      in turn. */
  lemma DispatchOrder(w: World, nick: string, session: string, log: Log, ls: seq<Label>, s: Sup)
    requires Run(w, Start(nick, session, log), ls) == Some(s)
    ensures forall p, q :: 0 <= p < q < |s.hist| && s.hist[p].Sent? && SentFor(s.hist[q], s.hist[p].gen) ==>
      s.hist[p].index <= s.hist[q].index
    ensures forall q :: 0 <= q < |s.hist| && s.hist[q].Sent? ==> InTurn(SceneOf(w, s), s.hist, q)
  {
    StartHasInv(w, nick, session, log);
    RunKeepsInv(w, Start(nick, session, log), ls);
    var c := SceneOf(w, s);
    forall p, q | 0 <= p < q < |s.hist| && s.hist[p].Sent? && SentFor(s.hist[q], s.hist[p].gen)
      ensures s.hist[p].index <= s.hist[q].index
    {
      LaterSendIsNotEarlier(c, s.hist, p, q);
    }
    forall q | 0 <= q < |s.hist| && s.hist[q].Sent? ensures InTurn(c, s.hist, q) { SendIsInTurn(c, s.hist, q); }
  }

  /** Nothing is skipped: the stored cursor lies in the log, and behind it, back to the start of the
      generation, there are only messages, each acknowledged under that generation or filtered while
      it was not meant for it; and the route is the one the generation began with. */
  lemma CursorConservation(w: World, nick: string, session: string, log: Log, ls: seq<Label>, s: Sup)
    requires Run(w, Start(nick, session, log), ls) == Some(s) && s.stored.Some?
    ensures var b := s.stored.value;
      && b.id in s.gens && s.gens[b.id].route == b.route && s.gens[b.id].start <= b.offset <= |s.log|
      && forall i :: s.gens[b.id].start <= i < b.offset ==>
           IsMessage(SceneOf(w, s), i) && AckedOrFiltered(SceneOf(w, s), s.hist, b.id, i)
  {
    StartHasInv(w, nick, session, log);
    RunKeepsInv(w, Start(nick, session, log), ls);
    var b, c := s.stored.value, SceneOf(w, s);
    forall i | s.gens[b.id].start <= i < b.offset ensures IsMessage(c, i) && AckedOrFiltered(c, s.hist, b.id, i) {
      assert Settled(c, s.hist, b.id, i);
      PassedIsAckedOrFiltered(c, s.hist, b.id, i);
    }
  }

  /** The name in a filtering is the client's name of that moment, and the record is not meant for it. */
  lemma FilteringIsOfTheMoment(w: World, s: Sup, t: Sup)
    requires Inv(w, s) && DoFilterExit(s, true) == Some(t)
    ensures t.hist == s.hist + [Filtered(s.stored.value.id, s.stored.value.offset, s.nick)]
    ensures t.stored == Some(s.stored.value.(offset := s.stored.value.offset + 1))
    ensures !Addressed(SceneOf(w, s), s.nick, s.stored.value.id, s.stored.value.offset)
  {
  }

  /** Under another name a filtered message may be meant for the very generation that passed it: a
      restart of the session does not give it back. */
  lemma FilteredUnderAnotherName(w: World, s: Sup, session: string, nick: string, m: Sup, t: Sup)
    requires Inv(w, s) && DoFilterExit(s, true) == Some(m) && Step(w, m, Crash(session, nick)) == Some(t)
    requires Addressed(SceneOf(w, s), nick, s.stored.value.id, s.stored.value.offset)
    requires Acked(s.stored.value.id, s.stored.value.offset) !in s.hist
    ensures t.nick == nick && t.stored.Some? && t.stored.value.enabled && t.stored.value.id == s.stored.value.id
    ensures s.stored.value.offset < t.stored.value.offset
    ensures Addressed(SceneOf(w, t), t.nick, t.stored.value.id, s.stored.value.offset)
    ensures Acked(t.stored.value.id, s.stored.value.offset) !in t.hist
  {
    FilteringIsOfTheMoment(w, s, m);
  }

  // ----- single steps -----

  lemma StepGrows(w: World, s: Sup, l: Label)
    requires Step(w, s, l).Some?
    ensures var t := Step(w, s, l).value;
      s.log <= t.log && s.hist <= t.hist && forall g :: g in s.gens ==> g in t.gens && t.gens[g] == s.gens[g]
  {
  }
}
