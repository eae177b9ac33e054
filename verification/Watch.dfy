/** The connection counter of a supervisor, and the watcher that turns samples of it into notices. */
module Watch {
  import opened Prelude

  // ----- the watcher -----

  datatype Sample = Dead | Live(generation: nat)

  datatype Notice = Lost | Restored

  datatype Watcher = Watcher(down: bool, generation: nat)

  function Begin(s: Sample): Watcher {
    match s case Dead => Watcher(true, 0) case Live(g) => Watcher(false, g)
  }

  function Says(w: Watcher, s: Sample): seq<Notice> {
    match s
    case Dead => if w.down then [] else [Lost]
    case Live(g) => if w.down || g != w.generation then [Restored] else []
  }

  function Next(w: Watcher, s: Sample): Watcher {
    match s
    case Dead => w.(down := true)
    case Live(g) => Watcher(false, g)
  }

  function After(samples: seq<Sample>): Watcher
    requires samples != []
  {
    var n := |samples| - 1;
    if n == 0 then Begin(samples[0]) else Next(After(samples[..n]), samples[n])
  }

  /** The notices at sample `i`. */
  function At(samples: seq<Sample>, i: nat): seq<Notice>
    requires 0 < i < |samples|
  {
    Says(After(samples[..i]), samples[i])
  }

  /** The notices at samples `i` up to `j`. */
  function Between(samples: seq<Sample>, i: nat, j: nat): seq<Notice>
    requires 0 < i <= j <= |samples|
    decreases j
  {
    if i == j then [] else Between(samples, i, j - 1) + At(samples, j - 1)
  }

  method Run(samples: seq<Sample>) returns (notices: seq<Notice>)
    requires samples != []
    ensures notices == Between(samples, 1, |samples|)
  {
    var generation: nat := if samples[0].Live? then samples[0].generation else 0;
    var down := samples[0].Dead?;
    notices := [];
    assert samples[..1] == [samples[0]];
    for i := 1 to |samples|
      invariant Watcher(down, generation) == After(samples[..i])
      invariant notices == Between(samples, 1, i)
    {
      assert samples[..i + 1][..i] == samples[..i];
      match samples[i] {
        case Dead =>
          if !down {
            down := true;
            notices := notices + [Lost];
          }
        case Live(current) =>
          if down || current != generation {
            down, generation := false, current;
            notices := notices + [Restored];
          }
      }
    }
  }

  lemma StateIs(samples: seq<Sample>)
    requires samples != []
    ensures var w, last := After(samples), samples[|samples| - 1];
      && (w.down <==> last.Dead?) && (last.Live? ==> w.generation == last.generation)
  {
  }

  /** A notice compares a sample with the one before it, and with nothing else. */
  lemma NoticesAreLocal(samples: seq<Sample>, i: nat)
    requires 0 < i < |samples|
    ensures At(samples, i) ==
      if samples[i].Dead? then (if samples[i - 1].Live? then [Lost] else [])
      else if samples[i - 1].Dead? || samples[i - 1] != samples[i] then [Restored] else []
  {
    StateIs(samples[..i]);
    assert samples[..i][i - 1] == samples[i - 1];
  }

  ghost predicate AllDead(samples: seq<Sample>, i: nat, j: nat) {
    i <= j <= |samples| && forall k :: i <= k < j ==> samples[k].Dead?
  }

  lemma {:induction false} DeadIsSaidOnce(samples: seq<Sample>, i: nat, j: nat)
    requires i < j && AllDead(samples, i + 1, j) && samples[i].Live?
    ensures Between(samples, i + 1, j) == if j == i + 1 then [] else [Lost]
    decreases j
  {
    if i + 1 < j {
      NoticesAreLocal(samples, j - 1);
      DeadIsSaidOnce(samples, i, j - 1);
    }
  }

  /** What is said between one live sample and the next: a gap that was seen is told as lost and
      restored, one that was not seen as restored, and no gap as nothing. */
  lemma BetweenLiveSamples(samples: seq<Sample>, i: nat, j: nat)
    requires i < j < |samples| && samples[i].Live? && samples[j].Live? && AllDead(samples, i + 1, j)
    ensures Between(samples, i + 1, j + 1) ==
      if i + 1 < j then [Lost, Restored] else if samples[i] != samples[j] then [Restored] else []
  {
    DeadIsSaidOnce(samples, i, j);
    NoticesAreLocal(samples, j);
  }

  /** Between two losses there is always a restoration. */
  lemma LossesAreSeparated(samples: seq<Sample>, i: nat, j: nat)
    requires 0 < i < j < |samples| && At(samples, i) == [Lost] == At(samples, j)
    ensures exists k :: i < k < j && At(samples, k) == [Restored]
  {
    NoticesAreLocal(samples, i);
    NoticesAreLocal(samples, j);
    var k := FirstLive(samples, i, j - 1);
    NoticesAreLocal(samples, k);
  }

  lemma {:induction false} FirstLive(samples: seq<Sample>, i: nat, j: nat) returns (k: nat)
    requires i < j < |samples| && samples[i].Dead? && samples[j].Live?
    ensures i < k <= j && samples[k].Live? && samples[k - 1].Dead?
    decreases j - i
  {
    if samples[i + 1].Live? { k := i + 1; } else { k := FirstLive(samples, i + 1, j); }
  }

  // ----- the supervisor -----

  /** A status request looks at the connection and then, separately, reads the counter. */
  datatype Event =
    | Connected
    | Disconnected
    | Failed
    | Look
    | Read
    | Missed

  datatype Link = Link(conn: bool, failed: bool, generation: nat)

  function SetConn(l: Link, present: bool): Link {
    if present then Link(true, false, l.generation + 1) else l.(conn := false)
  }

  function SetFailure(l: Link): Link { l.(conn := false, failed := true) }

  /** One supervisor life: its link, whether a request is between look and read, the answers so far,
      and how many events had happened when each was given. */
  datatype Life = Life(link: Link, looking: bool, samples: seq<Sample>, times: seq<nat>)

  const BIRTH: Life := Life(Link(false, false, 0), false, [], [])

  function Answer(l: Life, s: Sample, now: nat): Life {
    l.(looking := false, samples := l.samples + [s], times := l.times + [now])
  }

  function Happen(l: Life, e: Event, now: nat): Option<Life> {
    match e
    case Connected => Some(l.(link := SetConn(l.link, true)))
    case Disconnected => Some(l.(link := SetConn(l.link, false)))
    case Failed => Some(l.(link := SetFailure(l.link)))
    case Look =>
      if l.looking then None
      else if !l.link.conn then Some(Answer(l, Dead, now))
      else Some(l.(looking := true))
    case Read => if l.looking then Some(Answer(l, Live(l.link.generation), now)) else None
    case Missed => Some(Answer(l, Dead, now))
  }

  function Lives(events: seq<Event>): Option<Life> {
    if events == [] then Some(BIRTH) else
    var n := |events| - 1;
    var before := Lives(events[..n]);
    if before.None? then None else Happen(before.value, events[n], n)
  }

  function Connects(events: seq<Event>): nat {
    if events == [] then 0
    else Connects(events[..|events| - 1]) + (if events[|events| - 1] == Connected then 1 else 0)
  }

  ghost predicate Counted(events: seq<Event>, l: Life) {
    && l.link.generation == Connects(events) && |l.times| == |l.samples|
    && (forall i :: 0 <= i < |l.times| ==> l.times[i] < |events|)
    && (forall i, j :: 0 <= i < j < |l.times| ==> l.times[i] < l.times[j])
    && forall i :: 0 <= i < |l.times| && l.samples[i].Live? ==>
         l.samples[i].generation == Connects(events[..l.times[i]])
  }

  lemma EventsAreCounted(events: seq<Event>, l: Life, e: Event, now: Life)
    requires Counted(events, l) && Happen(l, e, |events|) == Some(now)
    ensures Counted(events + [e], now)
  {
    var all := events + [e];
    assert all[..|events|] == events;
    forall i | 0 <= i < |now.times| && now.samples[i].Live?
      ensures now.samples[i].generation == Connects(all[..now.times[i]])
    {
      assert all[..now.times[i]] == events[..now.times[i]];
      assert events[..|events|] == events;
    }
  }

  lemma {:induction false} LivesAreCounted(events: seq<Event>)
    ensures Lives(events).Some? ==> Counted(events, Lives(events).value)
  {
    if events != [] && Lives(events).Some? {
      var init, last := events[..|events| - 1], events[|events| - 1];
      LivesAreCounted(init);
      EventsAreCounted(init, Lives(init).value, last, Lives(events).value);
      assert events == init + [last];
    }
  }

  lemma {:induction false} ConnectsGrow(events: seq<Event>, a: nat, b: nat)
    requires a <= b <= |events|
    ensures Connects(events[..a]) <= Connects(events[..b])
    ensures Connects(events[..a]) == Connects(events[..b]) <==> forall k :: a <= k < b ==> events[k] != Connected
    decreases b - a
  {
    if a < b {
      ConnectsGrow(events, a, b - 1);
      assert events[..b][..b - 1] == events[..b - 1];
    }
  }

  /** In every supervisor life, two successive live answers are told apart, by exactly one notice,
      exactly when a connection was established between their readings of the counter. */
  lemma ReconnectIsTold(events: seq<Event>, l: Life, i: nat)
    requires Lives(events) == Some(l) && i + 1 < |l.samples| && l.samples[i].Live? && l.samples[i + 1].Live?
    ensures |l.times| == |l.samples| && l.times[i] < l.times[i + 1] < |events|
    ensures At(l.samples, i + 1) ==
      if exists k :: l.times[i] <= k < l.times[i + 1] && events[k] == Connected then [Restored] else []
  {
    LivesAreCounted(events);
    ConnectsGrow(events, l.times[i], l.times[i + 1]);
    NoticesAreLocal(l.samples, i + 1);
  }

  /** No reconnection between two live answers goes untold, whatever was sampled in between. */
  lemma NoReconnectIsMissed(events: seq<Event>, l: Life, i: nat, j: nat)
    requires Lives(events) == Some(l) && i < j < |l.samples| && l.samples[i].Live? && l.samples[j].Live?
    ensures |l.times| == |l.samples| && l.times[i] < l.times[j] < |events|
    ensures (forall k :: i < k <= j ==> At(l.samples, k) != [Restored])
      ==> forall k :: l.times[i] <= k < l.times[j] ==> events[k] != Connected
  {
    LivesAreCounted(events);
    if forall k :: i < k <= j ==> At(l.samples, k) != [Restored] {
      QuietMeansSame(l.samples, i, j);
      ConnectsGrow(events, l.times[i], l.times[j]);
    }
  }

  lemma {:induction false} QuietMeansSame(samples: seq<Sample>, i: nat, j: nat)
    requires i < j < |samples| && samples[i].Live? && samples[j].Live?
    requires forall k :: i < k <= j ==> At(samples, k) != [Restored]
    ensures samples[i] == samples[j]
    decreases j - i
  {
    NoticesAreLocal(samples, j);
    assert At(samples, j) != [Restored];
    if i + 1 < j { QuietMeansSame(samples, i, j - 1); }
  }

  /** The supervisor's own fields. */
  class Transport {
    var conn: bool
    var failed: bool
    var generation: nat

    ghost function State(): Link reads this { Link(conn, failed, generation) }

    constructor ()
      ensures State() == BIRTH.link
    {
      conn, failed, generation := false, false, 0;
    }

    method SetConnection(present: bool)
      modifies this
      ensures State() == SetConn(old(State()), present)
    {
      conn := present;
      if present {
        failed := false;
        generation := generation + 1;
      }
    }

    method SetFailed()
      modifies this
      ensures State() == SetFailure(old(State()))
    {
      conn := false;
      failed := true;
    }
  }
}
