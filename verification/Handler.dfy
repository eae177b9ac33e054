/** The control handler and the worker as the object they are: each method changes the stored binding
    and is specified by the functions the step system is made of. Outcomes of file operations, and
    the frames the server will send, are parameters. */
module Handler {
  import opened Prelude
  import opened Messages
  import opened AppClient
  import opened Bindings
  import opened Subscriptions
  import opened Conversation
  import opened Delivery

  datatype Response =
    | Denied
    | Conflicting(differences: seq<Difference>)
    | ThreadUnavailable(failure: Failure)
    | Bound(b: Binding)

  /** How the outside world treats one bind request. */
  datatype BindWorld = BindWorld(loaded: bool, sized: bool, id: string, frames: seq<Frame>, saved: bool)

  function Bind(w: World, session: string, stored: Option<Binding>, size: nat, r: BindRequest, o: BindWorld)
    : (Option<Binding>, Response)
  {
    BindAfter(w, session, stored, size, r, o, Probe(Conn(0, o.frames, []), r.thread).1)
  }

  /** The same, given what the probe has found. */
  function BindAfter(w: World, session: string, stored: Option<Binding>, size: nat, r: BindRequest, o: BindWorld,
                     probe: Option<Failure>): (Option<Binding>, Response)
  {
    match Plan(w.canon, r, session, stored, o.loaded)
    case Reject => (stored, Denied)
    case Conflict(differences) => (stored, Conflicting(differences))
    case Reuse(b) => (stored, if probe.Some? then ThreadUnavailable(probe.value) else Bound(b))
    case Fresh(route) =>
      if !r.replay && !o.sized then (stored, Denied)
      else if probe.Some? && r.requireAvailable then (stored, ThreadUnavailable(probe.value))
      else
        var b := NewBinding(o.id, route, if r.replay then 0 else size, r.replay, probe);
        if !o.saved || !Valid(b) then (stored, Denied) else (Some(b), Bound(b))
  }

  function Unbind(stored: Option<Binding>, loaded: bool, saved: bool): (Option<Binding>, bool) {
    if !loaded then (stored, false)
    else if stored.None? then (None, true)
    else if !saved then (stored, false)
    else (Some(stored.value.(enabled := false)), true)
  }

  /** How the outside world treats one record of a pass: whether the worker has been cancelled, whether
      the thread lock is granted, whether the binding loads for the current check, what the server
      sends, what becomes of each send, and whether the binding loads and is written at the end. */
  datatype Fate = Fate(
    cancelled: bool, locked: bool, current: bool, frames: seq<Frame>, first: SendFate, second: SendFate,
    loaded: bool, saved: bool)

  datatype PassState = PassState(stored: Option<Binding>, snap: Binding, delivered: seq<Msg>)

  function OutcomeOf(snap: Binding, fate: Fate): Outcome {
    var first, second := GateOf(true, fate.first), GateOf(true, fate.second);
    Deliver(Conn(0, fate.frames, []), snap.route.thread, snap.noStart, first, second).1
  }

  predicate Progresses(p: PassState, fate: Fate) { fate.loaded && MayUpdate(p.stored, p.snap) && fate.saved }

  function Progressed(p: PassState, rec: Rec, acknowledged: bool): PassState
    requires p.stored.Some?
  {
    PassState(Some(WithProgress(p.stored.value, rec.end, acknowledged)), p.snap.(offset := rec.end),
              if acknowledged then p.delivered + [rec.msg] else p.delivered)
  }

  predicate Dispatchable(p: PassState, session: string, rec: Rec, fate: Fate) {
    rec.msg.eventId != "" && fate.locked && fate.current && MayDispatch(p.stored, p.snap, session)
  }

  function FailedState(p: PassState, fate: Fate, f: Failure): PassState {
    if f != BindingChanged && fate.loaded && MayUpdate(p.stored, p.snap) && fate.saved
    then p.(stored := Some(WithFailure(p.stored.value, f)))
    else p
  }

  /** One record: the state after it, and whether the pass goes on to the next. */
  function PassStep(w: World, nick: string, session: string, rec: Rec, fate: Fate, p: PassState): (PassState, bool) {
    if fate.cancelled then (p, false)
    else if !w.addressed(rec.msg, nick, p.snap.route) then
      if Progresses(p, fate) then (Progressed(p, rec, false), true) else (p, false)
    else if !Dispatchable(p, session, rec, fate) then (p, false)
    else match OutcomeOf(p.snap, fate)
      case Retained(f) => (FailedState(p, fate, f), false)
      case Acknowledged(_, _) => if Progresses(p, fate) then (Progressed(p, rec, true), true) else (p, false)
  }

  /** The records of one pass, from the k-th on. `delivered` lists what was acknowledged and persisted. */
  function Pass(w: World, nick: string, session: string, recs: seq<Rec>, k: nat, fates: nat -> Fate,
                p: PassState): PassState
    decreases |recs| - k
  {
    if k >= |recs| then p else
    var (q, more) := PassStep(w, nick, session, recs[k], fates(k), p);
    if more then Pass(w, nick, session, recs, k + 1, fates, q) else q
  }

  /** One turn of the loop: the stored binding after it, and what was acknowledged and persisted. */
  function OneTurn(w: World, nick: string, session: string, log: Log, stored: Option<Binding>, loaded: bool,
                   readable: bool, fates: nat -> Fate): (Option<Binding>, seq<Msg>)
  {
    if !loaded || stored.None? || !stored.value.enabled || stored.value.route.session != session || !readable
    then (stored, [])
    else
      var recs, start := ReadRecords(log, stored.value.offset), PassState(stored, stored.value, []);
      var end := Pass(w, nick, session, recs, 0, fates, start);
      (end.stored, end.delivered)
  }

  class ControlHandler {
    const w: World
    const nick: string
    const session: string
    var stored: Option<Binding>
    var log: Log

    constructor (w: World, nick: string, session: string, stored: Option<Binding>, log: Log)
      ensures this.w == w && this.nick == nick && this.session == session && this.stored == stored && this.log == log
    {
      this.w, this.nick, this.session, this.stored, this.log := w, nick, session, stored, log;
    }

    method SaveCodexProgress(expected: Binding, offset: nat, acknowledged: bool, loaded: bool, saved: bool)
      returns (ok: bool)
      modifies this`stored
      ensures ok <==> loaded && MayUpdate(old(stored), expected) && saved
      ensures stored == if ok then Some(WithProgress(old(stored).value, offset, acknowledged)) else old(stored)
    {
      if !loaded || stored.None? { return false; }
      var current := stored.value;
      if !Matches(current, expected) || !current.enabled { return false; }
      current := current.(offset := offset);
      if acknowledged {
        current := current.(blocked := false, state := "accepted", failure := None, noStart := false);
      }
      if saved { stored := Some(current); }
      return saved;
    }

    method SaveCodexDeliveryFailure(expected: Binding, f: Failure, loaded: bool, saved: bool) returns (ok: bool)
      modifies this`stored
      ensures ok <==> loaded && MayUpdate(old(stored), expected) && saved
      ensures stored == if ok then Some(WithFailure(old(stored).value, f)) else old(stored)
    {
      if !loaded || stored.None? { return false; }
      var current := stored.value;
      if !Matches(current, expected) || !current.enabled { return false; }
      current := current.(blocked := true, state := FailureState(f), failure := Some(f));
      if IsUnclassifiedSteer(f) { current := current.(noStart := true); }
      if saved { stored := Some(current); }
      return saved;
    }

    method CodexBindingCurrent(expected: Binding, loaded: bool) returns (current: bool)
      ensures current <==> loaded && MayDispatch(stored, expected, session)
    {
      current := loaded && stored.Some? && stored.value.enabled && Matches(stored.value, expected)
                 && stored.value.route.session == session;
    }

    /** The gate of one send: the write itself happens inside it, under the mutex. */
    method AuthorizeCodexDispatch(expected: Binding, f: SendFate) returns (gate: Gate)
      ensures gate == GateOf(MayDispatch(stored, expected, session), f)
    {
      if !f.loaded { return Closed(Broken); }
      if stored.None? || !Matches(stored.value, expected) || !stored.value.enabled {
        return Closed(BindingChanged);
      }
      if stored.value.route.session != session { return Closed(BindingChanged); }
      return if f.written then Open else WriteFails;
    }

    method UnbindCodex(loaded: bool, saved: bool) returns (ok: bool)
      modifies this`stored
      ensures (stored, ok) == Unbind(old(stored), loaded, saved)
    {
      if !loaded { return false; }
      if stored.None? { return true; }
      if !saved { return false; }
      stored := Some(stored.value.(enabled := false));
      return true;
    }

    method BindCodexWithReuse(r: BindRequest, o: BindWorld) returns (response: Response)
      modifies this`stored
      ensures (stored, response) == Bind(w, session, old(stored), |log|, r, o)
    {
      if !("unix:///" <= r.endpoint) || r.thread == "" { return Denied; }
      var channels := NormalizeSubscribedChannels(w.canon, r.channels);
      if channels.None? { return Denied; }
      var route := Route(session, r.endpoint, r.thread, r.mention, channels.value);
      if r.reuse {
        if !r.requireAvailable || r.replay { return Denied; }
        if !o.loaded { return Denied; }
        if stored.Some? && stored.value.enabled {
          if !SameRoute(w.canon, stored.value.route, route) {
            return Conflicting(Differences(w.canon, stored.value.route, route));
          }
          var prober := new Rpc(o.frames);
          var failure := prober.CheckThread(r.thread);
          if failure.Some? { return ThreadUnavailable(failure.value); }
          return Bound(stored.value);
        }
      }
      var offset := 0;
      if !r.replay {
        if !o.sized { return Denied; }
        offset := |log|;
      }
      var client := new Rpc(o.frames);
      var probe := client.CheckThread(r.thread);
      if probe.Some? && r.requireAvailable { return ThreadUnavailable(probe.value); }
      var b := NewBinding(o.id, route, offset, r.replay, probe);
      if !o.saved || !Valid(b) { return Denied; }
      stored := Some(b);
      return Bound(b);
    }

    /** One record of a pass: whether the pass goes on, and with what in hand. */
    method HandleRecord(snap: Binding, record: Rec, fate: Fate, delivered: seq<Msg>)
      returns (more: bool, next: Binding, done: seq<Msg>)
      modifies this`stored
      ensures (PassState(stored, next, done), more)
           == PassStep(w, nick, session, record, fate, PassState(old(stored), snap, delivered))
    {
      more, next, done := false, snap, delivered;
      if fate.cancelled { return; }
      if !w.addressed(record.msg, nick, snap.route) {
        more := SaveCodexProgress(snap, record.end, false, fate.loaded, fate.saved);
        if more { next := snap.(offset := record.end); }
        return;
      }
      if record.msg.eventId == "" || !fate.locked { return; }
      var current := CodexBindingCurrent(snap, fate.current);
      if !current { return; }
      var first := AuthorizeCodexDispatch(snap, fate.first);
      var second := AuthorizeCodexDispatch(snap, fate.second);
      var client := new Rpc(fate.frames);
      var out := client.DeliverText(snap.route.thread, snap.noStart, first, second);
      if out.Retained? {
        if out.failure != BindingChanged {
          var recorded := SaveCodexDeliveryFailure(snap, out.failure, fate.loaded, fate.saved);
        }
        return;
      }
      more := SaveCodexProgress(snap, record.end, true, fate.loaded, fate.saved);
      if more {
        next := snap.(offset := record.end);
        done := delivered + [record.msg];
      }
    }

    /** The records of one turn, after the binding has been loaded and the log read. */
    method WorkerPass(binding: Binding, records: seq<Rec>, fates: nat -> Fate)
      returns (cursor: nat, delivered: seq<Msg>)
      modifies this`stored
      ensures var end := Pass(w, nick, session, records, 0, fates, PassState(old(stored), binding, []));
        stored == end.stored && delivered == end.delivered && cursor == end.snap.offset
    {
      var snap, i, more := binding, 0, true;
      delivered := [];
      ghost var whole := Pass(w, nick, session, records, 0, fates, PassState(stored, binding, []));
      while i < |records| && more
        invariant i <= |records|
        invariant (if more then Pass(w, nick, session, records, i, fates, PassState(stored, snap, delivered))
                   else PassState(stored, snap, delivered)) == whole
        decreases |records| - i
      {
        more, snap, delivered := HandleRecord(snap, records[i], fates(i), delivered);
        i := i + 1;
      }
      cursor := snap.offset;
    }

    /** One turn of the worker's loop, from loading the binding on. */
    method WorkerTurn(loaded: bool, readable: bool, fates: nat -> Fate) returns (delivered: seq<Msg>)
      modifies this`stored
      ensures var end := OneTurn(w, nick, session, log, old(stored), loaded, readable, fates);
        stored == end.0 && delivered == end.1
    {
      if !loaded || stored.None? || !stored.value.enabled { return []; }
      if stored.value.route.session != session { return []; }
      if !readable { return []; }
      var binding := stored.value;
      var cursor: nat;
      cursor, delivered := WorkerPass(binding, ReadRecords(log, binding.offset), fates);
    }
  }
}
