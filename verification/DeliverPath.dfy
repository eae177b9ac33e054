/** A delivery attempt whose binding stays current is a path of the delivery step system, and the
    history it leaves is the story of what it wrote and what came back. */
module DeliverPath {
  import opened Prelude
  import opened Messages
  import opened AppClient
  import opened Bindings
  import opened Conversation
  import opened ConversationTheorems
  import opened Delivery

  lemma {:induction false} RunConcat(w: World, s: Sup, a: seq<Label>, b: seq<Label>)
    requires Run(w, s, a).Some?
    ensures Run(w, s, a + b) == Run(w, Run(w, s, a).value, b)
  {
    if b == [] {
      assert a + b == a;
    } else {
      var init := b[..|b| - 1];
      RunConcat(w, s, a, init);
      assert (a + b)[..|a + b| - 1] == a + init;
    }
  }

  lemma RunOne(w: World, s: Sup, l: Label)
    ensures Run(w, s, [l]) == Step(w, s, l)
  {
    assert [l][..0] == [];
    assert Run(w, s, []) == Some(s);
  }

  /** `t` differs from `s` only in the phase of the pass and in these events. */
  ghost predicate Moved(s: Sup, t: Sup, p: Phase, events: seq<Event>) {
    s.worker.Busy? && t == Goto(s, p).(hist := s.hist + events)
  }

  /** Between two steps of an attempt: nobody in the mutex, and the stored binding still the pass's own. */
  ghost predicate Ready(s: Sup) {
    s.worker.Busy? && s.mutex == Free && MayDispatch(s.stored, s.worker.snap, s.session)
  }

  function PhaseAfter(v: Verdict): Phase {
    match v case Delivered(_) => Acking case Recheck => Rechecking case Undelivered(f) => Failing(f)
  }

  function PhaseOf(out: Outcome): Phase {
    if out.Acknowledged? then Acking else Failing(out.failure)
  }

  // ----- the events of an attempt -----

  /** What an attempt is about: a generation, a record of the log, and the client's name. */
  datatype Subject = Subject(gen: string, index: nat, nick: string)

  function SubjectOf(s: Sup): Subject
    requires s.worker.Busy?
  {
    Subject(s.worker.snap.id, s.worker.snap.offset, s.nick)
  }

  function VerdictEvents(sub: Subject, v: Verdict): seq<Event> {
    match v
    case Delivered(_) => [Acked(sub.gen, sub.index)]
    case Recheck => [SteerRefused(sub.gen, sub.index)]
    case Undelivered(_) => []
  }

  /** A turn that the server names has taken the text, whatever else is known of it. */
  function TryEvents(sub: Subject, d: Dispatch, f: SendFate, v: Verdict): seq<Event> {
    (if f.loaded then [Sent(sub.gen, sub.index, sub.nick, d, f.taken || v.Delivered?)] else []) + VerdictEvents(sub, v)
  }

  function AgainEvents(sub: Subject, c: Conn, thread: string, f: SendFate): seq<Event> {
    var (c1, seen) := Look(c, thread);
    if Redecide(seen).Send? then TryEvents(sub, StartStale, f, Try(c1, StartStale, GateOf(true, f)).1) else []
  }

  function AttemptEvents(sub: Subject, c: Conn, thread: string, d: Dispatch, first: SendFate,
                         second: SendFate): seq<Event> {
    var (c1, v) := Try(c, d, GateOf(true, first));
    TryEvents(sub, d, first, v) + (if v.Recheck? then AgainEvents(sub, c1, thread, second) else [])
  }

  function DeliverEvents(sub: Subject, c: Conn, thread: string, noStart: bool, first: SendFate,
                         second: SendFate): seq<Event> {
    var choice := Decide(noStart, FirstLook(c, thread));
    if choice.Send? then AttemptEvents(sub, AfterFirstLook(c, thread), thread, choice.dispatch, first, second) else []
  }

  // ----- attempts are paths -----

  lemma NoEvents(h: seq<Event>)
    ensures h + [] == h
  {
  }

  /** A dispatch that cannot be authorized: the binding file is unreadable. */
  lemma HeldIsAPath(w: World, s: Sup, d: Dispatch) returns (ls: seq<Label>, t: Sup)
    requires Ready(s) && At(s, Authorizing(d))
    ensures Run(w, s, ls) == Some(t) && Moved(s, t, Failing(Broken), [])
  {
    RunOne(w, s, Authorize(false));
    NoEvents(s.hist);
    return [Authorize(false)], Goto(s, Failing(Broken));
  }

  /** A dispatch that is authorized. If its write fails, nobody knows whether the text arrived. */
  lemma WriteIsAPath(w: World, s: Sup, d: Dispatch, written: bool, taken: bool) returns (ls: seq<Label>, t: Sup)
    requires Ready(s) && At(s, Authorizing(d))
    ensures Run(w, s, ls) == Some(t)
    ensures Moved(s, t, if written then Awaiting(d, taken) else Failing(Broken),
                  [Sent(s.worker.snap.id, s.worker.snap.offset, s.nick, d, taken)])
  {
    var s1 := Goto(s, Authorized(d)).(mutex := ByWorker);
    RunOne(w, s, Authorize(true));
    RunOne(w, s1, Dispatched(written, taken));
    RunConcat(w, s, [Authorize(true)], [Dispatched(written, taken)]);
    ls := [Authorize(true)] + [Dispatched(written, taken)];
    t := DoDispatched(s1, written, taken).value;
  }

  lemma AnswerIsAStep(w: World, s: Sup, d: Dispatch, taken: bool, reply: Reply, v: Verdict, t: Sup)
    requires At(s, Awaiting(d, taken)) && v == Judge(d, reply) && (v.Delivered? ==> taken) && t == Conclude(s, v)
    ensures Run(w, s, [Answer(reply)]) == Some(t)
    ensures Moved(s, t, PhaseAfter(v), VerdictEvents(SubjectOf(s), v))
  {
    JudgeIs(d, reply);
    RunOne(w, s, Answer(reply));
    NoEvents(s.hist);
  }

  /** A dispatch that is written, and its reply. */
  lemma AnsweredIsAPath(w: World, s: Sup, d: Dispatch, taken: bool, reply: Reply, v: Verdict)
    returns (ls: seq<Label>, t: Sup)
    requires Ready(s) && At(s, Authorizing(d)) && v == Judge(d, reply) && (v.Delivered? ==> taken)
    ensures Run(w, s, ls) == Some(t)
    ensures Moved(s, t, PhaseAfter(v), TryEvents(SubjectOf(s), d, SendFate(true, true, taken), v))
  {
    var sent := [Sent(s.worker.snap.id, s.worker.snap.offset, s.nick, d, taken)];
    var first, m := WriteIsAPath(w, s, d, true, taken);
    t := Conclude(m, v);
    AnswerIsAStep(w, m, d, taken, reply, v, t);
    RunConcat(w, s, first, [Answer(reply)]);
    ls := first + [Answer(reply)];
    MovedTwice(s, m, t, Awaiting(d, taken), PhaseAfter(v), sent, VerdictEvents(SubjectOf(s), v));
  }

  lemma MovedTwice(s: Sup, t: Sup, u: Sup, p: Phase, q: Phase, first: seq<Event>, second: seq<Event>)
    requires Moved(s, t, p, first) && Moved(t, u, q, second)
    ensures Moved(s, u, q, first + second)
  {
    assert s.hist + first + second == s.hist + (first + second);
  }

  lemma TryOutcomes(c: Conn, d: Dispatch, f: SendFate)
    ensures !f.loaded ==> Try(c, d, GateOf(true, f)).1 == Undelivered(Broken)
    ensures f.loaded && !f.written ==> Try(c, d, GateOf(true, f)).1 == Undelivered(Broken)
    ensures f.loaded && f.written ==>
      Try(c, d, GateOf(true, f)).1 == Judge(d, ReplyOf(d, Call(c, MethodOf(d), TurnOf(d), Open).1))
  {
  }

  /** A dispatch over the wire, whatever becomes of it, is a path that leaves exactly its events. */
  lemma TryIsAPath(w: World, s: Sup, c: Conn, d: Dispatch, f: SendFate, v: Verdict) returns (ls: seq<Label>, t: Sup)
    requires Ready(s) && At(s, Authorizing(d)) && v == Try(c, d, GateOf(true, f)).1
    ensures Run(w, s, ls) == Some(t)
    ensures Moved(s, t, PhaseAfter(v), TryEvents(SubjectOf(s), d, f, v))
  {
    TryOutcomes(c, d, f);
    if !f.loaded {
      ls, t := HeldIsAPath(w, s, d);
    } else if !f.written {
      ls, t := WriteIsAPath(w, s, d, false, f.taken);
      NoEvents([Sent(s.worker.snap.id, s.worker.snap.offset, s.nick, d, f.taken)]);
    } else {
      var reply := ReplyOf(d, Call(c, MethodOf(d), TurnOf(d), Open).1);
      ls, t := AnsweredIsAPath(w, s, d, f.taken || v.Delivered?, reply, v);
    }
  }

  lemma StaleStartIsFinal(c: Conn, f: SendFate)
    ensures !Try(c, StartStale, GateOf(true, f)).1.Recheck?
  {
    TryOutcomes(c, StartStale, f);
    JudgeIs(StartStale, ReplyOf(StartStale, Call(c, TurnStart, "", Open).1));
  }

  lemma AgainSends(sub: Subject, c: Conn, thread: string, f: SendFate, v: Verdict, out: Outcome)
    requires Redecide(Look(c, thread).1).Send? && v == Try(Look(c, thread).0, StartStale, GateOf(true, f)).1
    requires out == Again(c, thread, GateOf(true, f)).1
    ensures Redecide(Look(c, thread).1) == Send(StartStale)
    ensures PhaseOf(out) == PhaseAfter(v) && out == Conclusion(StartStale, v)
    ensures AgainEvents(sub, c, thread, f) == TryEvents(sub, StartStale, f, v)
  {
    RedecideIs(Look(c, thread).1);
    StaleStartIsFinal(Look(c, thread).0, f);
  }

  lemma AgainGivesUp(sub: Subject, c: Conn, thread: string, f: SendFate, out: Outcome)
    requires Redecide(Look(c, thread).1).GiveUp? && out == Again(c, thread, GateOf(true, f)).1
    ensures out == Retained(Redecide(Look(c, thread).1).failure) && AgainEvents(sub, c, thread, f) == []
  {
  }

  lemma ReinspectIsAStep(w: World, s: Sup, seen: Inspection, t: Sup)
    requires At(s, Rechecking) && Honest(seen) && t == Follow(s, Redecide(seen))
    ensures Run(w, s, [Reinspect(seen)]) == Some(t) && t.hist == s.hist
  {
    RunOne(w, s, Reinspect(seen));
  }

  lemma AgainIsAPath(w: World, s: Sup, c: Conn, thread: string, f: SendFate, out: Outcome)
    returns (ls: seq<Label>, t: Sup)
    requires Ready(s) && At(s, Rechecking) && out == Again(c, thread, GateOf(true, f)).1
    ensures Run(w, s, ls) == Some(t)
    ensures Moved(s, t, PhaseOf(out), AgainEvents(SubjectOf(s), c, thread, f))
  {
    var (c1, seen) := Look(c, thread);
    LookIs(c, thread);
    ls, t := [Reinspect(seen)], Follow(s, Redecide(seen));
    ReinspectIsAStep(w, s, seen, t);
    if Redecide(seen).Send? {
      var v := Try(c1, StartStale, GateOf(true, f)).1;
      AgainSends(SubjectOf(s), c, thread, f, v, out);
      var more, u := TryIsAPath(w, t, c1, StartStale, f, v);
      RunConcat(w, s, ls, more);
      ls, t := ls + more, u;
    } else {
      AgainGivesUp(SubjectOf(s), c, thread, f, out);
      NoEvents(s.hist);
    }
  }

  lemma AttemptIsAPath(w: World, s: Sup, c: Conn, thread: string, d: Dispatch, first: SendFate,
                       second: SendFate, out: Outcome)
    returns (ls: seq<Label>, t: Sup)
    requires Ready(s) && At(s, Authorizing(d))
    requires out == Attempt(c, thread, d, GateOf(true, first), GateOf(true, second)).1
    ensures Run(w, s, ls) == Some(t)
    ensures Moved(s, t, PhaseOf(out), AttemptEvents(SubjectOf(s), c, thread, d, first, second))
  {
    var (c1, v) := Try(c, d, GateOf(true, first));
    ls, t := TryIsAPath(w, s, c, d, first, v);
    var events := TryEvents(SubjectOf(s), d, first, v);
    if v.Recheck? {
      var more, u := AgainIsAPath(w, t, c1, thread, second, out);
      RunConcat(w, s, ls, more);
      MovedTwice(s, t, u, Rechecking, PhaseOf(out), events, AgainEvents(SubjectOf(s), c1, thread, second));
      ls, t := ls + more, u;
    } else {
      NoEvents(events);
    }
  }

  lemma InspectIsAStep(w: World, s: Sup, seen: Inspection, t: Sup)
    requires At(s, Inspecting) && Honest(seen) && t == Follow(s, Decide(s.worker.snap.noStart, seen))
    ensures Run(w, s, [Inspect(seen)]) == Some(t) && t.hist == s.hist
  {
    RunOne(w, s, Inspect(seen));
  }

  lemma GivenUpIsMoved(s: Sup, f: Failure)
    requires s.worker.Busy?
    ensures Moved(s, Follow(s, GiveUp(f)), Failing(f), [])
  {
    NoEvents(s.hist);
  }

  /** Every conversation, whatever goes wrong in it, is a path that ends where it ends, acknowledged or
      failing for that reason, and leaves exactly its events; nothing else has changed. */
  lemma DeliverIsAPath(w: World, s: Sup, c: Conn, thread: string, first: SendFate, second: SendFate, out: Outcome)
    returns (ls: seq<Label>, t: Sup)
    requires Ready(s) && At(s, Inspecting)
    requires out == Deliver(c, thread, s.worker.snap.noStart, GateOf(true, first), GateOf(true, second)).1
    ensures Run(w, s, ls) == Some(t)
    ensures Moved(s, t, PhaseOf(out), DeliverEvents(SubjectOf(s), c, thread, s.worker.snap.noStart, first, second))
  {
    var noStart, seen := s.worker.snap.noStart, FirstLook(c, thread);
    FirstLookIsHonest(c, thread);
    var choice := Decide(noStart, seen);
    ls, t := [Inspect(seen)], Follow(s, choice);
    InspectIsAStep(w, s, seen, t);
    if choice.Send? {
      DeliverTries(c, thread, noStart, GateOf(true, first), GateOf(true, second));
      var more, u := AttemptIsAPath(w, t, AfterFirstLook(c, thread), thread, choice.dispatch, first, second, out);
      RunConcat(w, s, ls, more);
      ls, t := ls + more, u;
    } else {
      DeliverGivesUp(c, thread, noStart, GateOf(true, first), GateOf(true, second));
      GivenUpIsMoved(s, choice.failure);
    }
  }

  // ----- the events tell what was written -----

  function DispatchOf(write: Sending, again: bool): Dispatch {
    if write.call.TurnSteer? then Steer(write.turn) else if again then StartStale else StartIdle
  }

  /** The history of an attempt, told from what it wrote: each write a dispatch, a refusal after the
      first if it was refused, and an acknowledgement at the end if there was one. */
  function Story(sub: Subject, writes: seq<Sending>, taken: bool, takenAgain: bool, refused: bool,
                 acked: bool): seq<Event> {
    (if writes == [] then [] else [Sent(sub.gen, sub.index, sub.nick, DispatchOf(writes[0], false), taken)])
    + (if refused then [SteerRefused(sub.gen, sub.index)] else [])
    + (if |writes| < 2 then [] else [Sent(sub.gen, sub.index, sub.nick, DispatchOf(writes[1], true), takenAgain)])
    + (if acked then [Acked(sub.gen, sub.index)] else [])
  }

  /** From `c` to `e` the attempt wrote `writes`, came to `out`, and left this history; the thread took
      what its fate says, and whatever was acknowledged. */
  ghost predicate Tells(sub: Subject, c: Conn, e: Conn, out: Outcome, first: SendFate, second: SendFate,
                        writes: seq<Sending>, refused: bool, events: seq<Event>)
  {
    && Delivers(c, e, out, writes)
    && events == Story(sub, writes, first.taken || (out.Acknowledged? && |writes| == 1),
                       second.taken || out.Acknowledged?, refused, out.Acknowledged?)
    && (|writes| == 2 ==> refused)
    && (refused ==> writes != [] && writes[0].call.TurnSteer? && RefusedAsIdle(c, writes[0].id))
  }

  lemma TellsOnce(sub: Subject, c: Conn, e: Conn, out: Outcome, d: Dispatch, v: Verdict, first: SendFate,
                  second: SendFate,
                  writes: seq<Sending>)
    requires Delivers(c, e, out, writes) && out == Conclusion(d, v) && !v.Recheck? && !d.StartStale?
    requires writes == if first.loaded then [Sending(c.next + 1, MethodOf(d), TurnOf(d))] else []
    ensures Tells(sub, c, e, out, first, second, writes, false, TryEvents(sub, d, first, v) + [])
  {
  }

  lemma TellsTwice(sub: Subject, c: Conn, e: Conn, out: Outcome, d: Dispatch, first: SendFate, second: SendFate,
                   writes: seq<Sending>, more: seq<Sending>, again: seq<Event>)
    requires Delivers(c, e, out, writes) && d.Steer? && first.loaded && RefusedAsIdle(c, c.next + 1)
    requires writes == [Sending(c.next + 1, TurnSteer, d.turn)] + more && |more| <= 1
    requires more != [] ==> more[0].call == TurnStart
    requires out.Acknowledged? ==> more != []
    requires again == (if more == [] then []
                       else [Sent(sub.gen, sub.index, sub.nick, StartStale, second.taken || out.Acknowledged?)])
                      + (if out.Acknowledged? then [Acked(sub.gen, sub.index)] else [])
    ensures Tells(sub, c, e, out, first, second, writes, true, TryEvents(sub, d, first, Recheck) + again)
  {
    var taken, takenAgain := first.taken || (out.Acknowledged? && |writes| == 1), second.taken || out.Acknowledged?;
    StoryTwice(sub, d, more, taken, takenAgain, out.Acknowledged?, writes, again);
  }

  lemma StoryTwice(sub: Subject, d: Dispatch, more: seq<Sending>, taken: bool, takenAgain: bool, acked: bool,
                   writes: seq<Sending>, again: seq<Event>)
    requires d.Steer? && writes != [] && writes[0].call == TurnSteer && writes[0].turn == d.turn && writes[1..] == more
    requires |more| <= 1 && (more != [] ==> more[0].call == TurnStart) && (acked ==> more != [])
    requires again == (if more == [] then [] else [Sent(sub.gen, sub.index, sub.nick, StartStale, takenAgain)])
                      + (if acked then [Acked(sub.gen, sub.index)] else [])
    ensures Story(sub, writes, taken, takenAgain, true, acked)
         == [Sent(sub.gen, sub.index, sub.nick, d, taken), SteerRefused(sub.gen, sub.index)] + again
  {
    if more != [] { assert writes[1] == more[0]; }
  }

  lemma AgainTells(sub: Subject, c: Conn, thread: string, f: SendFate, out: Outcome, more: seq<Sending>)
    requires out == Again(c, thread, GateOf(true, f)).1
    requires more != [] <==> Redecide(Look(c, thread).1).Send? && f.loaded
    ensures out.Acknowledged? ==> more != []
    ensures AgainEvents(sub, c, thread, f)
         == (if more == [] then [] else [Sent(sub.gen, sub.index, sub.nick, StartStale, f.taken || out.Acknowledged?)])
            + (if out.Acknowledged? then [Acked(sub.gen, sub.index)] else [])
  {
    if Redecide(Look(c, thread).1).Send? {
      var v := Try(Look(c, thread).0, StartStale, GateOf(true, f)).1;
      AgainSends(sub, c, thread, f, v, out);
      TryOutcomes(Look(c, thread).0, StartStale, f);
      StaleStartIsFinal(Look(c, thread).0, f);
    } else {
      AgainGivesUp(sub, c, thread, f, out);
    }
  }

  lemma AttemptTells(sub: Subject, c: Conn, thread: string, d: Dispatch, first: SendFate, second: SendFate)
    returns (writes: seq<Sending>, refused: bool)
    requires !d.StartStale?
    ensures var (e, out) := Attempt(c, thread, d, GateOf(true, first), GateOf(true, second));
      Tells(sub, c, e, out, first, second, writes, refused, AttemptEvents(sub, c, thread, d, first, second))
  {
    var gate, gate2 := GateOf(true, first), GateOf(true, second);
    writes := AttemptIs(c, thread, d, gate, gate2);
    var (c1, v) := Try(c, d, gate);
    var one := TryIs(c, d, gate);
    var (e, out) := Attempt(c, thread, d, gate, gate2);
    refused := v.Recheck?;
    if v.Recheck? {
      var more := AgainIs(c1, thread, gate2);
      WroteThen(c, c1, e, one, more);
      WritesAreUnique(c, e, writes, one + more);
      AgainTells(sub, c1, thread, second, out, more);
      TellsTwice(sub, c, e, out, d, first, second, writes, more, AgainEvents(sub, c1, thread, second));
    } else {
      WritesAreUnique(c, e, writes, one);
      TellsOnce(sub, c, e, out, d, v, first, second, writes);
    }
  }

  lemma TellsAfter(sub: Subject, c: Conn, d: Conn, e: Conn, out: Outcome, first: SendFate, second: SendFate,
                   writes: seq<Sending>, refused: bool, events: seq<Event>)
    requires Wrote(c, d, []) && Tells(sub, d, e, out, first, second, writes, refused, events)
    ensures Tells(sub, c, e, out, first, second, writes, refused, events)
  {
    DeliversAfter(c, d, e, out, writes);
    if refused { RefusedEarlier(c, d, writes[0].id); }
  }

  /** The history that an attempt leaves is the story of its writes: as many dispatches as the text was
      written times, of the same kinds and turns and in the same order, an acknowledgement exactly if
      there was one, and a refusal only where the server refused. */
  lemma DeliverTells(sub: Subject, c: Conn, thread: string, noStart: bool, first: SendFate, second: SendFate)
    returns (writes: seq<Sending>, refused: bool)
    ensures var (e, out) := Deliver(c, thread, noStart, GateOf(true, first), GateOf(true, second));
      Tells(sub, c, e, out, first, second, writes, refused, DeliverEvents(sub, c, thread, noStart, first, second))
  {
    var gate, gate2 := GateOf(true, first), GateOf(true, second);
    FirstLookWrites(c, thread);
    FirstLookIsHonest(c, thread);
    var choice, c1 := Decide(noStart, FirstLook(c, thread)), AfterFirstLook(c, thread);
    if choice.Send? {
      DeliverTries(c, thread, noStart, gate, gate2);
      writes, refused := AttemptTells(sub, c1, thread, choice.dispatch, first, second);
      var (e, out) := Attempt(c1, thread, choice.dispatch, gate, gate2);
      TellsAfter(sub, c, c1, e, out, first, second, writes, refused,
                 AttemptEvents(sub, c1, thread, choice.dispatch, first, second));
    } else {
      DeliverGivesUp(c, thread, noStart, gate, gate2);
      writes, refused := [], false;
    }
  }
}
