/** Sessions started again under another name: when nothing meant for the client stays hidden behind
    its cursor, and a run in which something does. */
module Renaming {
  import opened Prelude
  import opened Messages
  import opened AppClient
  import opened Bindings
  import opened Subscriptions
  import opened Delivery
  import opened DeliveryInvariant
  import opened DeliveryHistory
  import opened DeliveryTheorems

  /** Every entry behind the stored cursor that is meant for its generation under the present name was
      acknowledged and persisted. */
  ghost predicate NothingHidden(w: World, s: Sup) {
    s.stored.Some? ==>
      var b, c := s.stored.value, SceneOf(w, s);
      b.id in s.gens
      && forall i :: s.gens[b.id].start <= i < b.offset && Addressed(c, s.nick, b.id, i) ==>
           Acked(b.id, i) in s.hist && Saved(b.id, i) in s.hist
  }

  /** No entry that the stored generation filtered is meant for it under the present name. */
  ghost predicate NothingFilteredIsMine(w: World, s: Sup) {
    s.stored.Some? ==>
      var g := s.stored.value.id;
      g in s.gens
      && forall i, nick :: Filtered(g, i, nick) in s.hist ==> !Addressed(SceneOf(w, s), s.nick, g, i)
  }

  /** A generation passes no entry twice. */
  lemma PassedInOrder(c: Scene, h: seq<Event>, p: nat, q: nat, g: string)
    requires Lawful(c, h) && p < q < |h| && Passes(h[p], g) && Passes(h[q], g)
    ensures h[p].index < h[q].index
  {
    LawfulAt(c, h, q);
    if h[q].Saved? {
      SavedWasAcked(c, h, q);
      LawfulAt(c, h, q - 2);
      assert h[..q - 2][p] == h[p];
    } else {
      assert h[..q][p] == h[p];
    }
  }

  lemma NotSavedAndFiltered(c: Scene, h: seq<Event>, g: string, i: nat, nick: string)
    requires Lawful(c, h) && Filtered(g, i, nick) in h
    ensures Saved(g, i) !in h
  {
    var p :| 0 <= p < |h| && h[p] == Filtered(g, i, nick);
    forall q | 0 <= q < |h| ensures h[q] != Saved(g, i) {
      if p < q && Passes(h[q], g) { PassedInOrder(c, h, p, q, g); }
      if q < p && Passes(h[q], g) { PassedInOrder(c, h, q, p, g); }
    }
  }

  /** What was filtered for the stored generation lies behind its cursor. */
  lemma FilteredLiesBehind(w: World, s: Sup, i: nat, nick: string)
    requires Inv(w, s) && s.stored.Some? && Filtered(s.stored.value.id, i, nick) in s.hist
    ensures s.stored.value.id in s.gens && s.gens[s.stored.value.id].start <= i < s.stored.value.offset
  {
    var p :| 0 <= p < |s.hist| && s.hist[p] == Filtered(s.stored.value.id, i, nick);
    LawfulAt(SceneOf(w, s), s.hist, p);
    assert Passes(s.hist[p], s.stored.value.id);
  }

  /** In every reachable state nothing is hidden if and only if nothing that was filtered is meant for
      the client under its present name. */
  lemma HiddenExactly(w: World, nick: string, session: string, log: Log, ls: seq<Label>, s: Sup)
    requires Run(w, Start(nick, session, log), ls) == Some(s)
    ensures NothingHidden(w, s) <==> NothingFilteredIsMine(w, s)
  {
    StartHasInv(w, nick, session, log);
    RunKeepsInv(w, Start(nick, session, log), ls);
    if s.stored.Some? {
      CursorConservation(w, nick, session, log, ls, s);
      var g, c := s.stored.value.id, SceneOf(w, s);
      if NothingHidden(w, s) {
        forall i, was | Filtered(g, i, was) in s.hist ensures !Addressed(c, s.nick, g, i) {
          FilteredLiesBehind(w, s, i, was);
          NotSavedAndFiltered(c, s.hist, g, i, was);
        }
      }
      if NothingFilteredIsMine(w, s) {
        forall i | s.gens[g].start <= i < s.stored.value.offset && Addressed(c, s.nick, g, i)
          ensures Acked(g, i) in s.hist && Saved(g, i) in s.hist
        {
          assert AckedOrFiltered(c, s.hist, g, i);
        }
      }
    }
  }

  lemma RunSnoc(w: World, s: Sup, ls: seq<Label>, m: Sup, l: Label)
    requires Run(w, s, ls) == Some(m)
    ensures Run(w, s, ls + [l]) == Step(w, m, l)
  {
    assert (ls + [l])[..|ls|] == ls;
  }

  /** So whether starting the session again under a name will hide anything can be told before: it will
      if and only if a message filtered for the stored generation is meant for that name. */
  lemma RestartHides(w: World, nick: string, session: string, log: Log, ls: seq<Label>, s: Sup, again: string,
                     now: string)
    requires Run(w, Start(nick, session, log), ls) == Some(s) && s.stored.Some? && s.stored.value.id in s.gens
    ensures NothingHidden(w, DoCrash(s, again, now)) <==>
      forall i, was :: Filtered(s.stored.value.id, i, was) in s.hist ==>
        !Addressed(SceneOf(w, s), now, s.stored.value.id, i)
  {
    RunSnoc(w, Start(nick, session, log), ls, s, Crash(again, now));
    HiddenExactly(w, nick, session, log, ls + [Crash(again, now)], DoCrash(s, again, now));
  }

  // ----- a session that keeps its name -----

  ghost predicate KeepsName(ls: seq<Label>, nick: string) {
    forall k :: 0 <= k < |ls| && ls[k].Crash? ==> ls[k].nick == nick
  }

  ghost predicate OneName(s: Sup, nick: string) {
    s.nick == nick && forall k :: 0 <= k < |s.hist| && s.hist[k].Filtered? ==> s.hist[k].nick == nick
  }

  lemma StepKeepsName(w: World, s: Sup, l: Label, nick: string)
    requires OneName(s, nick) && Step(w, s, l).Some? && (l.Crash? ==> l.nick == nick)
    ensures OneName(Step(w, s, l).value, nick)
  {
  }

  lemma {:induction false} RunKeepsName(w: World, s: Sup, ls: seq<Label>, nick: string)
    requires OneName(s, nick) && KeepsName(ls, nick) && Run(w, s, ls).Some?
    ensures OneName(Run(w, s, ls).value, nick)
  {
    if ls != [] {
      var init := ls[..|ls| - 1];
      assert KeepsName(init, nick);
      RunKeepsName(w, s, init, nick);
      StepKeepsName(w, Run(w, s, init).value, ls[|ls| - 1], nick);
    }
  }

  /** While every restart keeps the name, nothing is ever hidden. */
  lemma SameName(w: World, nick: string, session: string, log: Log, ls: seq<Label>, s: Sup)
    requires Run(w, Start(nick, session, log), ls) == Some(s) && KeepsName(ls, nick)
    ensures NothingHidden(w, s)
  {
    RunKeepsName(w, Start(nick, session, log), ls, nick);
    StartHasInv(w, nick, session, log);
    RunKeepsInv(w, Start(nick, session, log), ls);
    HiddenExactly(w, nick, session, log, ls, s);
    if s.stored.Some? {
      var g, c := s.stored.value.id, SceneOf(w, s);
      forall i, was | Filtered(g, i, was) in s.hist ensures !Addressed(c, s.nick, g, i) {
        var p :| 0 <= p < |s.hist| && s.hist[p] == Filtered(g, i, was);
        LawfulAt(c, s.hist, p);
      }
    }
  }

  // ----- a session that does not -----

  /** A request to bind from the beginning of the log, which no check turns away. */
  ghost predicate Plain(w: World, r: BindRequest, id: string, session: string) {
    && r.replay && !r.reuse && LocalEndpoint(r.endpoint) && r.thread != "" && id != "" && session != ""
    && Normalized(w.canon, r.channels).Some?
  }

  function RouteOf(w: World, r: BindRequest, session: string): Route
    requires Normalized(w.canon, r.channels).Some?
  {
    Route(session, r.endpoint, r.thread, r.mention, Normalized(w.canon, r.channels).value)
  }

  lemma BindSteps(w: World, s: Sup, r: BindRequest, id: string, b: Binding, probing: Sup, bound: Sup)
    requires Plain(w, r, id, s.session) && s.mutex == Free && s.request == NoRequest && id !in s.gens
    requires b == NewBinding(id, RouteOf(w, r, s.session), 0, true, None)
    requires probing == s.(mutex := ByRequest, request := Probing(b.route, 0, true, r.requireAvailable))
    requires bound == s.(stored := Some(b), gens := s.gens[id := Gen(0, b.route)])
    ensures Step(w, s, BindEnter(r, true, true)) == Some(probing)
    ensures Step(w, probing, BindExit(id, None, true)) == Some(bound)
  {
  }

  lemma ReadSteps(w: World, s: Sup, b: Binding, m: Msg, loaded: Sup, top: Sup)
    requires s.worker.Idle? && s.mutex == Free && s.stored == Some(b) && b.enabled && b.route.session == s.session
    requires s.log == [Line(m)] && b.offset == 0
    requires loaded == s.(worker := Busy(Loaded, b, [])) && top == s.(worker := Busy(Head, b, [Rec(m, 1)]))
    ensures Step(w, s, Load(true)) == Some(loaded) && Step(w, loaded, Read(true)) == Some(top)
  {
    assert ReadFrom(s.log, 1) == [];
    assert ReadFrom(s.log, 0) == [Rec(m, 1)];
  }

  /** From the start to the top of the first pass over a log of one message. */
  lemma BoundAndRead(w: World, s: Sup, m: Msg, r: BindRequest, id: string, b: Binding, bound: Sup)
    returns (ls: seq<Label>, top: Sup)
    requires s == Start(s.nick, s.session, [Line(m)]) && Plain(w, r, id, s.session)
    requires b == NewBinding(id, RouteOf(w, r, s.session), 0, true, None)
    requires bound == s.(stored := Some(b), gens := map[id := Gen(0, b.route)])
    ensures Run(w, s, ls) == Some(top) && top == bound.(worker := Busy(Head, b, [Rec(m, 1)]))
  {
    var probing := s.(mutex := ByRequest, request := Probing(b.route, 0, true, r.requireAvailable));
    var loaded := bound.(worker := Busy(Loaded, b, []));
    top := bound.(worker := Busy(Head, b, [Rec(m, 1)]));
    BindSteps(w, s, r, id, b, probing, bound);
    ReadSteps(w, bound, b, m, loaded, top);
    RunSnoc(w, s, [], s, BindEnter(r, true, true));
    var l1 := [] + [BindEnter(r, true, true)];
    RunSnoc(w, s, l1, probing, BindExit(id, None, true));
    var l2 := l1 + [BindExit(id, None, true)];
    RunSnoc(w, s, l2, bound, Load(true));
    var l3 := l2 + [Load(true)];
    RunSnoc(w, s, l3, loaded, Read(true));
    ls := l3 + [Read(true)];
  }

  /** A run of seven steps after which a message meant for the client under its present name lies behind
      the cursor of its own, enabled binding, and nothing was ever sent: bound, read, filtered, and then
      the session is started again under the name that the message is meant for. */
  lemma RenamedRun(w: World, was: string, now: string, session: string, m: Msg, r: BindRequest, id: string)
    returns (ls: seq<Label>, s: Sup)
    requires Plain(w, r, id, session)
    requires !w.addressed(m, was, RouteOf(w, r, session)) && w.addressed(m, now, RouteOf(w, r, session))
    ensures Run(w, Start(was, session, [Line(m)]), ls) == Some(s)
    ensures s.nick == now && s.session == session && s.hist == [Filtered(id, 0, was)]
    ensures s.stored.Some? && s.stored.value.enabled && s.stored.value.id == id && s.stored.value.offset == 1
    ensures id in s.gens && Addressed(SceneOf(w, s), now, id, 0) && !NothingHidden(w, s)
  {
    var start := Start(was, session, [Line(m)]);
    var b := NewBinding(id, RouteOf(w, r, session), 0, true, None);
    var bound := start.(stored := Some(b), gens := map[id := Gen(0, b.route)]);
    var l4, s4 := BoundAndRead(w, start, m, r, id, b, bound);
    var filtering := s4.(worker := Busy(Filtering, b, [Rec(m, 1)]), mutex := ByWorker);
    var passed := b.(offset := 1);
    var after := s4.(stored := Some(passed), worker := Busy(Head, passed, []), hist := [Filtered(id, 0, was)]);
    FilterSteps(w, s4, b, m, passed, filtering, after);
    RunSnoc(w, start, l4, s4, FilterEnter(true));
    RunSnoc(w, start, l4 + [FilterEnter(true)], filtering, FilterExit(true));
    RunSnoc(w, start, l4 + [FilterEnter(true)] + [FilterExit(true)], after, Crash(session, now));
    ls := l4 + [FilterEnter(true)] + [FilterExit(true)] + [Crash(session, now)];
    s := DoCrash(after, session, now);
    assert Addressed(SceneOf(w, s), now, id, 0);
    assert Saved(id, 0) !in s.hist;
  }

  lemma FilterSteps(w: World, s: Sup, b: Binding, m: Msg, passed: Binding, filtering: Sup, after: Sup)
    requires s.worker == Busy(Head, b, [Rec(m, 1)]) && s.mutex == Free && s.stored == Some(b) && b.enabled
    requires b.offset == 0 && s.hist == [] && !w.addressed(m, s.nick, b.route) && passed == b.(offset := 1)
    requires filtering == s.(worker := Busy(Filtering, b, [Rec(m, 1)]), mutex := ByWorker)
    requires after == s.(stored := Some(passed), worker := Busy(Head, passed, []), hist := [Filtered(b.id, 0, s.nick)])
    ensures Step(w, s, FilterEnter(true)) == Some(filtering)
    ensures Step(w, filtering, FilterExit(true)) == Some(after)
  {
    assert [Rec(m, 1)][1..] == [] && s.hist + [Filtered(b.id, 0, s.nick)] == after.hist;
  }

  /** Such a message: in a channel, mentioning only the new name, on a binding that follows mentions. */
  lemma MentionsNewName(canon: string -> string, sameNick: (string, string) -> bool, mentions: (string, string) -> bool,
                        m: Msg, was: string, now: string, route: Route)
    requires m.kind == "channel" && now != "" && !sameNick(m.nick, now) && route.mention && route.channels == []
    requires mentions(m.text, now) && !mentions(m.text, was)
    ensures AddressedTo(canon, sameNick, mentions, m, now, route)
    ensures !AddressedTo(canon, sameNick, mentions, m, was, route)
  {
  }
}
