/** Generations: who may dispatch, what a stale pass may write, and when a start is held back. */
module DeliverySafety {
  import opened Prelude
  import opened Messages
  import opened AppClient
  import opened Bindings
  import opened Subscriptions
  import opened Delivery
  import opened DeliveryInvariant
  import opened DeliveryHistory
  import opened DeliveryTheorems

  ghost predicate Live(s: Sup, g: string) {
    s.stored.Some? && s.stored.value.id == g && s.stored.value.enabled
  }

  /** Whenever text is handed to the thread, the stored binding is enabled, belongs to the running
      session and is the pass's own generation, destination and cursor. */
  lemma DispatchIsLive(w: World, s: Sup, written: bool, accepted: bool)
    requires Inv(w, s) && Step(w, s, Dispatched(written, accepted)).Some?
    ensures Live(s, s.worker.snap.id) && s.stored.value.route == s.worker.snap.route
    ensures s.stored.value.route.session == s.session && s.stored.value.offset == s.worker.snap.offset
    ensures Step(w, s, Dispatched(written, accepted)).value.hist
         == s.hist + [Sent(s.stored.value.id, s.stored.value.offset, s.nick, s.worker.phase.d, accepted)]
    ensures Addressed(SceneOf(w, s), s.nick, s.stored.value.id, s.stored.value.offset)
  {
  }

  lemma OnlyDispatchSends(w: World, s: Sup, l: Label)
    requires Step(w, s, l).Some? && !l.Dispatched?
    ensures var t := Step(w, s, l).value;
      s.hist <= t.hist && |t.hist| <= |s.hist| + 1 && (|t.hist| > |s.hist| ==> !t.hist[|s.hist|].Sent?)
  {
  }

  /** Ids are never reused, so a generation comes alive only once. */
  lemma OnlyFreshComesAlive(w: World, s: Sup, l: Label, g: string)
    requires Local(w, s) && Step(w, s, l).Some? && g in s.gens && Live(Step(w, s, l).value, g)
    ensures Live(s, g)
  {
    StoredStep(w, s, l);
  }

  ghost predicate NoSendAfter(s: Sup, t: Sup, g: string) {
    s.hist <= t.hist && forall p :: |s.hist| <= p < |t.hist| ==> !SentFor(t.hist[p], g)
  }

  /** Once a generation has been unbound or replaced, no interleaving dispatches for it again. */
  lemma {:induction false} RetiredIsSilent(w: World, s: Sup, ls: seq<Label>, g: string)
    requires Inv(w, s) && g in s.gens && !Live(s, g) && Run(w, s, ls).Some?
    ensures var t := Run(w, s, ls).value; g in t.gens && !Live(t, g) && NoSendAfter(s, t, g)
  {
    if ls != [] {
      var init, last := ls[..|ls| - 1], ls[|ls| - 1];
      RetiredIsSilent(w, s, init, g);
      RunKeepsInv(w, s, init);
      RetiredStep(w, s, Run(w, s, init).value, last, Run(w, s, ls).value, g);
    }
  }

  lemma RetiredStep(w: World, s: Sup, m: Sup, l: Label, t: Sup, g: string)
    requires Inv(w, m) && g in m.gens && !Live(m, g) && NoSendAfter(s, m, g) && Step(w, m, l) == Some(t)
    ensures g in t.gens && !Live(t, g) && NoSendAfter(s, t, g)
  {
    StepGrows(w, m, l);
    if Live(t, g) { OnlyFreshComesAlive(w, m, l, g); }
    OnlyLiveSends(w, m, l, t, g);
  }

  lemma OnlyLiveSends(w: World, m: Sup, l: Label, t: Sup, g: string)
    requires Inv(w, m) && !Live(m, g) && Step(w, m, l) == Some(t)
    ensures NoSendAfter(m, t, g)
  {
    if l.Dispatched? { DispatchIsLive(w, m, l.written, l.accepted); } else { OnlyDispatchSends(w, m, l); }
  }

  /** Unbinding, or binding again, retires the generation it found. */
  lemma UnbindRetires(w: World, s: Sup, l: Label)
    requires Inv(w, s) && (l == UnbindExit(true) || l.BindExit?) && Step(w, s, l).Some?
    requires s.stored.Some? && Step(w, s, l).value.stored != s.stored
    ensures s.stored.value.id in Step(w, s, l).value.gens && !Live(Step(w, s, l).value, s.stored.value.id)
  {
  }

  // ----- the stored binding over a run -----

  /** The stored binding of `t` is a later version of the one in `s`, or of a newer generation. */
  ghost predicate Follows(s: Sup, t: Sup) {
    t.stored.Some? && t.stored.value.id in s.gens ==>
      var a, b := s.stored, t.stored.value;
      && a.Some? && a.value.id == b.id && a.value.route == b.route && a.value.replay == b.replay
      && a.value.offset <= b.offset && (b.enabled ==> a.value.enabled)
  }

  predicate Rewrites(l: Label) { l.FilterExit? || l.FailExit? || l.AckExit? || l.UnbindExit? || l.BindExit? }

  lemma OthersLeaveStored(w: World, s: Sup, l: Label)
    requires Step(w, s, l).Some? && !Rewrites(l)
    ensures Step(w, s, l).value.stored == s.stored
  {
  }

  lemma StoredStep(w: World, s: Sup, l: Label)
    requires Local(w, s) && Step(w, s, l).Some?
    ensures Follows(s, Step(w, s, l).value)
  {
    if !Rewrites(l) {
      OthersLeaveStored(w, s, l);
    } else if l.UnbindExit? || l.BindExit? {
      RequestFollows(w, s, l);
    } else {
      if l.AckExit? { AckFollows(w, s, l); } else { SaveFollows(w, s, l); }
    }
  }

  lemma RequestFollows(w: World, s: Sup, l: Label)
    requires Local(w, s) && (l.UnbindExit? || l.BindExit?) && Step(w, s, l).Some?
    ensures Follows(s, Step(w, s, l).value)
  {
  }

  lemma AckFollows(w: World, s: Sup, l: Label)
    requires Local(w, s) && l.AckExit? && Step(w, s, l).Some?
    ensures Follows(s, Step(w, s, l).value)
  {
  }

  lemma SaveFollows(w: World, s: Sup, l: Label)
    requires Local(w, s) && (l.FilterExit? || l.FailExit?) && Step(w, s, l).Some?
    ensures Follows(s, Step(w, s, l).value)
  {
  }

  /** Over a whole run a generation keeps its route, never moves its cursor back and, once disabled,
      stays disabled; and no older generation returns. */
  lemma {:induction false} StoredFollows(w: World, s: Sup, ls: seq<Label>)
    requires Inv(w, s) && Run(w, s, ls).Some?
    ensures Follows(s, Run(w, s, ls).value)
    ensures forall g :: g in s.gens ==> g in Run(w, s, ls).value.gens
  {
    if ls != [] {
      var init, last := ls[..|ls| - 1], ls[|ls| - 1];
      StoredFollows(w, s, init);
      RunKeepsInv(w, s, init);
      var m := Run(w, s, init).value;
      StoredStep(w, m, last);
      StepGrows(w, m, last);
    }
  }

  /** A pass writes progress or failure only to its own generation, and only while it is enabled. */
  lemma SavesTouchOwnGeneration(w: World, s: Sup, l: Label, t: Sup)
    requires Local(w, s) && Step(w, s, l) == Some(t) && (l.FilterExit? || l.FailExit? || l.AckExit?)
    ensures Live(s, s.worker.snap.id) && Live(t, s.worker.snap.id)
    ensures t.stored.value.route == s.stored.value.route == s.worker.snap.route
  {
  }

  /** A pass whose binding was replaced or disabled is turned away before any write. */
  lemma StalePassIsTurnedAway(w: World, s: Sup, l: Label)
    requires Local(w, s) && s.worker.Busy? && !Live(s, s.worker.snap.id) && Step(w, s, l).Some?
    requires l.FilterEnter? || l.CheckCurrent? || l.FailEnter? || l.AckEnter?
    ensures Step(w, s, l).value == Stop(s)
  {
  }

  // ----- starting after an unclassified steer error -----

  lemma {:induction false} FlaggedUntilSaved(h: seq<Event>, g: string, a: nat)
    requires a < |h| && h[a] == Flagged(g)
    requires forall k :: a < k < |h| ==> !(h[k].Saved? && h[k].gen == g)
    ensures Suppressed(h, g)
  {
    if a < |h| - 1 { FlaggedUntilSaved(h[..|h| - 1], g, a); }
  }

  /** Position `q` starts a turn on the heels of a steer of the same record, refused as "no active turn". */
  ghost predicate FollowsRefusal(h: seq<Event>, q: nat)
    requires q < |h| && h[q].Sent?
  {
    && h[q].d.StartStale? && q >= 2 && h[q - 1] == SteerRefused(h[q].gen, h[q].index)
    && h[q - 2].Sent? && h[q - 2].gen == h[q].gen && h[q - 2].index == h[q].index && h[q - 2].d.Steer?
  }

  /** A start for a generation flagged at `a`, with nothing persisted for it in between. */
  ghost predicate StartsWhileFlagged(h: seq<Event>, a: nat, q: nat) {
    && a < q < |h| && h[a].Flagged? && SentFor(h[q], h[a].gen) && !h[q].d.Steer?
    && forall k :: a < k < q ==> !(h[k].Saved? && h[k].gen == h[a].gen)
  }

  lemma LawfulStarts(c: Scene, h: seq<Event>, a: nat, q: nat)
    requires Lawful(c, h) && StartsWhileFlagged(h, a, q)
    ensures FollowsRefusal(h, q)
  {
    LawfulAt(c, h, q);
    FlaggedUntilSaved(h[..q], h[a].gen, a);
    LawfulAt(c, h, q - 1);
  }

  /** After an unclassified steer error of a generation is recorded, and until a delivery of it is
      persisted, no start follows a first look that finds the thread idle. The only start left comes
      right after a steer of the same record, in the same attempt, refused as "no active turn". */
  lemma NoBlindStart(w: World, nick: string, session: string, log: Log, ls: seq<Label>, s: Sup, a: nat, q: nat)
    requires Run(w, Start(nick, session, log), ls) == Some(s) && StartsWhileFlagged(s.hist, a, q)
    ensures FollowsRefusal(s.hist, q)
  {
    StartHasInv(w, nick, session, log);
    RunKeepsInv(w, Start(nick, session, log), ls);
    LawfulStarts(SceneOf(w, s), s.hist, a, q);
  }

  // ----- where a new generation starts -----

  predicate EndsProbe(l: Label) { l.Crash? || l.BindExit? }

  lemma ProbeStep(w: World, s: Sup, l: Label)
    requires Local(w, s) && s.request.Probing? && Step(w, s, l).Some? && !EndsProbe(l)
    ensures Step(w, s, l).value.request == s.request
  {
  }

  lemma {:induction false} ProbeHolds(w: World, s: Sup, ls: seq<Label>)
    requires Inv(w, s) && s.request.Probing? && Run(w, s, ls).Some?
    requires forall k :: 0 <= k < |ls| ==> !EndsProbe(ls[k])
    ensures Run(w, s, ls).value.request == s.request && s.log <= Run(w, s, ls).value.log
  {
    if ls != [] {
      var init, last := ls[..|ls| - 1], ls[|ls| - 1];
      ProbeHolds(w, s, init);
      RunKeepsInv(w, s, init);
      ProbeStep(w, Run(w, s, init).value, last);
      StepGrows(w, Run(w, s, init).value, last);
    }
  }

  /** A binding without replay starts at the log length measured when the request began, however
      long the probe took: every message that arrived meanwhile lies ahead of its cursor. */
  lemma BindStartsWhereItMeasured(w: World, s: Sup, r: BindRequest, loaded: bool, begun: Sup, ls: seq<Label>, m: Sup,
                                  id: string, probe: Option<Failure>, t: Sup)
    requires Inv(w, s) && DoBindEnter(w, s, r, loaded, true) == Some(begun) && begun.request.Probing?
    requires Run(w, begun, ls) == Some(m) && forall k :: 0 <= k < |ls| ==> !EndsProbe(ls[k])
    requires DoBindExit(m, id, probe, true) == Some(t) && t.stored != m.stored
    ensures Live(t, id) && t.stored.value.offset == (if r.replay then 0 else |s.log|) && s.log <= t.log
  {
    BindEnterKeeps(w, s, r, loaded, true);
    BindBegins(w, s, r, loaded, begun);
    ProbeHolds(w, begun, ls);
  }

  lemma BindBegins(w: World, s: Sup, r: BindRequest, loaded: bool, begun: Sup)
    requires s.mutex.Free? && s.request.NoRequest?
    requires DoBindEnter(w, s, r, loaded, true) == Some(begun) && begun.request.Probing?
    ensures SameBooks(s, begun) && begun.request.start == (if r.replay then 0 else |s.log|)
  {
  }

  // ----- the log -----

  function Appended(ls: seq<Label>): Log {
    if ls == [] then [] else
    var before, last := Appended(ls[..|ls| - 1]), ls[|ls| - 1];
    if last.Append? then before + [last.entry] else before
  }

  lemma StepLog(w: World, s: Sup, l: Label)
    requires Step(w, s, l).Some?
    ensures Step(w, s, l).value.log == if l.Append? then s.log + [l.entry] else s.log
  {
  }

  /** The log holds what has been appended, in order, and nothing else ever touches it. */
  lemma {:induction false} LogIsAppends(w: World, s: Sup, ls: seq<Label>)
    requires Run(w, s, ls).Some?
    ensures Run(w, s, ls).value.log == s.log + Appended(ls)
  {
    if ls != [] {
      var init, last := ls[..|ls| - 1], ls[|ls| - 1];
      LogIsAppends(w, s, init);
      StepLog(w, Run(w, s, init).value, last);
    }
  }
}
