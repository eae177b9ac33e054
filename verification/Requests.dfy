/** What a control request comes to: exactly when it replaces, keeps or refuses, and what it leaves. */
module Requests {
  import opened Prelude
  import opened AppClient
  import opened Bindings
  import opened Subscriptions
  import opened Conversation
  import opened Delivery
  import opened Handler

  /** Every channel that is asked for can be subscribed to, and there is a local endpoint and a thread. */
  ghost predicate Sensible(canon: string -> string, r: BindRequest) {
    && "unix:///" <= r.endpoint && r.thread != ""
    && forall c :: c in r.channels ==> canon(c) != "" && canon(c)[0] == '#'
  }

  /** The request is not to reuse anything, or it is, properly, and there is nothing to be reused. */
  ghost predicate AsksAfresh(r: BindRequest, stored: Option<Binding>, loaded: bool) {
    !r.reuse || (r.requireAvailable && !r.replay && loaded && (stored.None? || !stored.value.enabled))
  }

  ghost predicate AsksReuse(r: BindRequest, stored: Option<Binding>, loaded: bool) {
    r.reuse && r.requireAvailable && !r.replay && loaded && stored.Some? && stored.value.enabled
  }

  lemma SensibleIs(canon: string -> string, r: BindRequest)
    ensures Sensible(canon, r) <==>
      LocalEndpoint(r.endpoint) && r.thread != "" && Normalized(canon, r.channels).Some?
  {
    NormalizedIs(canon, r.channels);
    forall c | c in r.channels ensures Acceptable(canon(c)) <==> canon(c) != "" && canon(c)[0] == '#' {}
  }

  ghost predicate IsNewBinding(w: World, session: string, size: nat, r: BindRequest, id: string,
                               probe: Option<Failure>, b: Binding) {
    && Normalized(w.canon, r.channels) == Some(b.route.channels)
    && b.route == Route(session, r.endpoint, r.thread, r.mention, b.route.channels)
    && b.id == id && b.enabled && b.offset == (if r.replay then 0 else size) && b.replay == r.replay
    && b.blocked == probe.Some? && b.failure == probe && !b.noStart
    && b.state == if probe.None? then "ready" else FailureState(probe.value)
  }

  /** A request that asks afresh replaces whatever is stored exactly if it is sensible, the cursor can be
      set, the thread answers or need not, and the new binding is complete and is written: and then by a
      binding of a new generation, enabled, at the end of the log or at its beginning if it is to be
      replayed, and blocked only by what the probe met. Otherwise what is stored stays. */
  lemma AskedAfresh(w: World, session: string, stored: Option<Binding>, size: nat, r: BindRequest, o: BindWorld,
                    probe: Option<Failure>, now: Option<Binding>, response: Response)
    requires AsksAfresh(r, stored, o.loaded) && probe == Probe(Conn(0, o.frames, []), r.thread).1
    requires (now, response) == Bind(w, session, stored, size, r, o)
    ensures response.Bound? <==>
      (&& Sensible(w.canon, r) && (r.replay || o.sized) && (probe.None? || !r.requireAvailable)
       && o.saved && o.id != "" && session != "")
    ensures response.ThreadUnavailable? <==>
      (Sensible(w.canon, r) && (r.replay || o.sized) && probe.Some? && r.requireAvailable)
    ensures response.ThreadUnavailable? ==> response.failure == probe.value
    ensures !response.Conflicting? && (!response.Bound? ==> now == stored)
    ensures response.Bound? ==> now == Some(response.b) && IsNewBinding(w, session, size, r, o.id, probe, response.b)
  {
    SensibleIs(w.canon, r);
  }

  /** A proper request to reuse an enabled binding never changes it: it is answered by that binding, by
      what differs, or by what the probe met. */
  lemma AskedReuse(w: World, session: string, b: Binding, size: nat, r: BindRequest, o: BindWorld,
                   probe: Option<Failure>, now: Option<Binding>, response: Response)
    requires AsksReuse(r, Some(b), o.loaded) && probe == Probe(Conn(0, o.frames, []), r.thread).1
    requires (now, response) == Bind(w, session, Some(b), size, r, o)
    ensures now == Some(b) && (response.Denied? <==> !Sensible(w.canon, r))
    ensures Sensible(w.canon, r) ==>
      var route := Route(session, r.endpoint, r.thread, r.mention, Normalized(w.canon, r.channels).GetOr([]));
      if !SameRoute(w.canon, b.route, route) then response == Conflicting(Differences(w.canon, b.route, route))
      else response == if probe.Some? then ThreadUnavailable(probe.value) else Bound(b)
  {
    SensibleIs(w.canon, r);
  }

  /** An improper request to reuse is refused, whatever is stored. */
  lemma AskedImproperly(w: World, session: string, stored: Option<Binding>, size: nat, r: BindRequest, o: BindWorld)
    requires r.reuse && (!r.requireAvailable || r.replay || !o.loaded)
    ensures Bind(w, session, stored, size, r, o) == (stored, Denied)
  {
  }

  /** Every request asks afresh, to reuse, or improperly. */
  lemma AskedSomehow(r: BindRequest, stored: Option<Binding>, loaded: bool)
    ensures AsksAfresh(r, stored, loaded) || AsksReuse(r, stored, loaded)
      || (r.reuse && (!r.requireAvailable || r.replay || !loaded))
  {
  }

  /** An unbind succeeds if the binding loads and either there is none or the change is written; it
      disables what is stored and keeps all else of it. */
  lemma UnbindIs(stored: Option<Binding>, loaded: bool, saved: bool, now: Option<Binding>, ok: bool)
    requires (now, ok) == Unbind(stored, loaded, saved)
    ensures ok <==> loaded && (stored.None? || saved)
    ensures !ok ==> now == stored
    ensures stored.None? ==> now.None?
    ensures ok && stored.Some? ==>
      now.Some? && !now.value.enabled && now.value.(enabled := stored.value.enabled) == stored.value
  {
  }
}
