/** The routes that ever get stored are normal, so reuse means the same route in every reachable state. */
module Routes {
  import opened Prelude
  import opened Messages
  import opened AppClient
  import opened Bindings
  import opened Subscriptions
  import opened Delivery

  ghost predicate Normal(w: World, s: Sup) {
    && (s.stored.Some? ==> IsNormal(w.canon, s.stored.value.route.channels))
    && (s.request.Probing? ==> IsNormal(w.canon, s.request.route.channels))
    && (s.request.Unbinding? ==> IsNormal(w.canon, s.request.loaded.route.channels))
  }

  predicate Requests(l: Label) { l.UnbindEnter? || l.UnbindExit? || l.BindEnter? || l.BindExit? }

  lemma RequestsKeepNormal(w: World, s: Sup, l: Label)
    requires Normal(w, s) && Requests(l) && Step(w, s, l).Some?
    ensures Normal(w, Step(w, s, l).value)
  {
    if l.BindEnter? {
      var channels := Normalized(w.canon, l.r.channels);
      assert channels.Some? ==> IsNormal(w.canon, channels.value);
    }
  }

  lemma OthersKeepNormal(w: World, s: Sup, l: Label)
    requires Normal(w, s) && !Requests(l) && Step(w, s, l).Some?
    ensures Normal(w, Step(w, s, l).value)
  {
  }

  lemma {:induction false} RunKeepsNormal(w: World, s: Sup, ls: seq<Label>)
    requires Normal(w, s) && Run(w, s, ls).Some?
    ensures Normal(w, Run(w, s, ls).value)
  {
    if ls != [] {
      var init, last := ls[..|ls| - 1], ls[|ls| - 1];
      RunKeepsNormal(w, s, init);
      var m := Run(w, s, init).value;
      if Requests(last) { RequestsKeepNormal(w, m, last); } else { OthersKeepNormal(w, m, last); }
    }
  }

  /** In every reachable state, a well-formed request to reuse is granted exactly if it names the stored
      binding's session, endpoint, thread, mention setting and set of channels. */
  lemma ReuseInEveryRun(w: World, nick: string, session: string, log: Log, ls: seq<Label>, s: Sup, r: BindRequest)
    requires Idempotent(w.canon) && Run(w, Start(nick, session, log), ls) == Some(s)
    requires s.stored.Some? && s.stored.value.enabled && WellFormedReuse(w.canon, r)
    ensures Plan(w.canon, r, s.session, s.stored, true) == Reuse(s.stored.value)
      <==> AsksFor(w.canon, r, s.session, s.stored.value.route)
  {
    RunKeepsNormal(w, Start(nick, session, log), ls);
    ReuseIsSameRoute(w.canon, r, s.session, s.stored.value);
  }

  // ----- what is stored is usable -----

  /** A binding with a generation, a session, a thread and a local endpoint. */
  predicate Usable(b: Binding) { Valid(b) && LocalEndpoint(b.route.endpoint) }

  ghost predicate AllUsable(s: Sup) {
    && (s.stored.Some? ==> Usable(s.stored.value))
    && (s.request.Probing? ==> LocalEndpoint(s.request.route.endpoint))
    && (s.request.Unbinding? ==> Usable(s.request.loaded))
  }

  lemma RequestsKeepUsable(w: World, s: Sup, l: Label)
    requires AllUsable(s) && Requests(l) && Step(w, s, l).Some?
    ensures AllUsable(Step(w, s, l).value)
  {
  }

  lemma OthersKeepUsable(w: World, s: Sup, l: Label)
    requires AllUsable(s) && !Requests(l) && Step(w, s, l).Some?
    ensures AllUsable(Step(w, s, l).value)
  {
  }

  /** Whatever is stored in any run names its generation, session and thread, and a local endpoint. */
  lemma {:induction false} StoredIsUsable(w: World, nick: string, session: string, log: Log, ls: seq<Label>, s: Sup)
    requires Run(w, Start(nick, session, log), ls) == Some(s)
    ensures AllUsable(s)
  {
    if ls != [] {
      var init, last := ls[..|ls| - 1], ls[|ls| - 1];
      var m := Run(w, Start(nick, session, log), init).value;
      StoredIsUsable(w, nick, session, log, init, m);
      if Requests(last) { RequestsKeepUsable(w, m, last); } else { OthersKeepUsable(w, m, last); }
    }
  }
}
