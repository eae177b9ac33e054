/** Channel subscriptions of a binding: their normal form, and when two lists mean the same. */
module Subscriptions {
  import opened Prelude
  import opened Messages
  import opened Bindings
  import Text

  /** Comparing channels goes through one canonical spelling: lower case without surrounding space. */
  function Canonical(lower: char -> char, channel: string): string {
    Text.Map(lower, Text.TrimSpace(channel))
  }

  ghost predicate Idempotent(canon: string -> string) {
    forall c :: canon(canon(c)) == canon(c)
  }

  /** The facts of unicode.ToLower that make the canonical spelling a fixed point of itself. */
  ghost predicate CaseMap(lower: char -> char) {
    forall c :: lower(lower(c)) == lower(c) && Text.IsSpace(lower(c)) == Text.IsSpace(c)
  }

  lemma CanonicalTwice(lower: char -> char, channel: string)
    requires CaseMap(lower)
    ensures Canonical(lower, Canonical(lower, channel)) == Canonical(lower, channel)
  {
    var trimmed := Text.TrimSpace(channel);
    Text.TrimIsTrimmed(channel, Text.IsSpace);
    LoweredIsTrimmed(lower, trimmed);
    Text.TrimIsTrimmed(Text.Map(lower, trimmed), Text.IsSpace);
  }

  lemma LoweredIsTrimmed(lower: char -> char, s: string)
    requires CaseMap(lower) && Text.Trimmed(s, Text.IsSpace)
    ensures Text.Trimmed(Text.Map(lower, s), Text.IsSpace)
    ensures Text.Map(lower, Text.Map(lower, s)) == Text.Map(lower, s)
  {
  }

  lemma CanonicalIsIdempotent(lower: char -> char)
    requires CaseMap(lower)
    ensures Idempotent(c => Canonical(lower, c))
  {
    var canon := c => Canonical(lower, c);
    forall c ensures canon(canon(c)) == canon(c) { CanonicalTwice(lower, c); }
  }

  predicate Acceptable(channel: string) { channel != "" && channel[0] == '#' }

  /** The normal form of a request: first occurrences in order, or nothing at all. */
  function Normalized(canon: string -> string, channels: seq<string>): Option<seq<string>> {
    if channels == [] then Some([]) else
    var init := Normalized(canon, channels[..|channels| - 1]);
    var c := canon(channels[|channels| - 1]);
    if init.None? || !Acceptable(c) then None
    else if c in init.value then init
    else Some(init.value + [c])
  }

  /** A request has a normal form exactly when every channel in it is acceptable, and then the
      normal form lists the canonical names without repeating any. */
  lemma {:induction false} NormalizedIs(canon: string -> string, channels: seq<string>)
    ensures Normalized(canon, channels).Some? <==> forall c :: c in channels ==> Acceptable(canon(c))
    ensures Normalized(canon, channels).Some? ==>
      && Distinct(Normalized(canon, channels).value)
      && (forall c :: c in channels ==> canon(c) in Normalized(canon, channels).value)
      && (forall n :: n in Normalized(canon, channels).value ==> exists c :: c in channels && canon(c) == n)
  {
    if channels != [] {
      var init, last := channels[..|channels| - 1], channels[|channels| - 1];
      NormalizedIs(canon, init);
      assert channels == init + [last];
      assert last in channels;
      assert forall c :: c in channels <==> c in init || c == last;
    }
  }

  method NormalizeSubscribedChannels(canon: string -> string, channels: seq<string>) returns (r: Option<seq<string>>)
    ensures r == Normalized(canon, channels)
  {
    var seen: set<string> := {};
    var normalized: seq<string> := [];
    for i := 0 to |channels|
      invariant Normalized(canon, channels[..i]) == Some(normalized)
      invariant seen == Elements(normalized)
    {
      var channel := canon(channels[i]);
      assert channels[..i + 1][..i] == channels[..i];
      if channel == "" || channel[0] != '#' {
        NormalizedIs(canon, channels);
        assert channels[i] in channels && !Acceptable(canon(channels[i]));
        return None;
      }
      if channel !in seen {
        seen := seen + {channel};
        normalized := normalized + [channel];
      }
    }
    assert channels[..|channels|] == channels;
    return Some(normalized);
  }

  predicate Subscribed(canon: string -> string, target: string, subscriptions: seq<string>) {
    exists i :: 0 <= i < |subscriptions| && canon(subscriptions[i]) == canon(target)
  }

  /** The code's comparison: equal lengths, and every requested channel among the existing ones. */
  predicate SameSubscribed(canon: string -> string, left: seq<string>, right: seq<string>) {
    |left| == |right| && forall i :: 0 <= i < |right| ==> Subscribed(canon, right[i], left)
  }

  ghost predicate IsNormal(canon: string -> string, channels: seq<string>) {
    exists request :: Normalized(canon, request) == Some(channels)
  }

  lemma NormalIsCanon(canon: string -> string, channels: seq<string>)
    requires Idempotent(canon) && IsNormal(canon, channels)
    ensures Distinct(channels)
    ensures forall i :: 0 <= i < |channels| ==> canon(channels[i]) == channels[i]
  {
    var request :| Normalized(canon, request) == Some(channels);
    NormalizedIs(canon, request);
    forall i | 0 <= i < |channels| ensures canon(channels[i]) == channels[i] {
      assert channels[i] in channels;
      var c :| c in request && canon(c) == channels[i];
    }
  }

  lemma SubscribedIsMembership(canon: string -> string, target: string, channels: seq<string>)
    requires Idempotent(canon) && IsNormal(canon, channels)
    ensures Subscribed(canon, target, channels) <==> canon(target) in channels
  {
    NormalIsCanon(canon, channels);
  }

  /** On normal lists, the one-way test is equality of sets: the converse is the pigeonhole. */
  lemma SameSubscribedIsSetEquality(canon: string -> string, left: seq<string>, right: seq<string>)
    requires Idempotent(canon) && IsNormal(canon, left) && IsNormal(canon, right)
    ensures SameSubscribed(canon, left, right) <==> Elements(left) == Elements(right)
  {
    NormalIsCanon(canon, left);
    NormalIsCanon(canon, right);
    DistinctSize(left);
    DistinctSize(right);
    if SameSubscribed(canon, left, right) {
      forall c | c in right ensures c in left {
        var i :| 0 <= i < |right| && right[i] == c;
        SubscribedIsMembership(canon, right[i], left);
      }
      EqualBySize(Elements(right), Elements(left));
    } else if Elements(left) == Elements(right) {
      forall i | 0 <= i < |right| ensures Subscribed(canon, right[i], left) {
        assert right[i] in Elements(right);
        SubscribedIsMembership(canon, right[i], left);
      }
    }
  }

  /** Which stored messages a generation delivers, given nick comparison and mention search. */
  predicate AddressedTo(canon: string -> string, sameNick: (string, string) -> bool, mentions: (string, string) -> bool,
                        msg: Msg, nick: string, route: Route)
  {
    && nick != "" && !sameNick(msg.nick, nick)
    && (|| msg.kind == "direct"
        || (msg.kind == "channel"
            && (Subscribed(canon, msg.target, route.channels) || (route.mention && mentions(msg.text, nick)))))
  }

  /** A named reader other than the sender is meant by every direct message, by a message to a subscribed
      channel, and if mentions count by one to any channel that mentions him; and by nothing else. */
  lemma AddressedIs(canon: string -> string, sameNick: (string, string) -> bool, mentions: (string, string) -> bool,
                    msg: Msg, nick: string, route: Route)
    requires Idempotent(canon) && IsNormal(canon, route.channels)
    ensures nick == "" || sameNick(msg.nick, nick) ==> !AddressedTo(canon, sameNick, mentions, msg, nick, route)
    ensures nick != "" && !sameNick(msg.nick, nick) ==>
      && (msg.kind == "direct" ==> AddressedTo(canon, sameNick, mentions, msg, nick, route))
      && (msg.kind == "channel" && canon(msg.target) in route.channels ==>
            AddressedTo(canon, sameNick, mentions, msg, nick, route))
      && (msg.kind == "channel" && canon(msg.target) !in route.channels ==>
            (AddressedTo(canon, sameNick, mentions, msg, nick, route) <==> route.mention && mentions(msg.text, nick)))
      && (msg.kind !in {"direct", "channel"} ==> !AddressedTo(canon, sameNick, mentions, msg, nick, route))
  {
    SubscribedIsMembership(canon, msg.target, route.channels);
  }

  datatype BindRequest = BindRequest(
    endpoint: string, thread: string, replay: bool, mention: bool, channels: seq<string>,
    requireAvailable: bool, reuse: bool)

  datatype Difference = Session | Endpoint | Thread | Mention | Channels

  /** What a bind request comes to, once checked against the stored binding. */
  datatype BindPlan = Reject | Conflict(differences: seq<Difference>) | Reuse(existing: Binding) | Fresh(route: Route)

  function When(c: bool, d: Difference): seq<Difference> { if c then [d] else [] }

  function Differences(canon: string -> string, previous: Route, requested: Route): seq<Difference> {
    When(previous.session != requested.session, Session)
    + When(previous.endpoint != requested.endpoint, Endpoint)
    + When(previous.thread != requested.thread, Thread)
    + When(previous.mention != requested.mention, Mention)
    + When(!SameSubscribed(canon, previous.channels, requested.channels), Channels)
  }

  lemma NamedWhen(s: bool, e: bool, t: bool, m: bool, c: bool)
    ensures var d := When(s, Session) + When(e, Endpoint) + When(t, Thread) + When(m, Mention) + When(c, Channels);
      && (Session in d <==> s) && (Endpoint in d <==> e) && (Thread in d <==> t) && (Mention in d <==> m)
      && (Channels in d <==> c) && (d == [] <==> !s && !e && !t && !m && !c)
  {
  }

  predicate SameRoute(canon: string -> string, previous: Route, requested: Route) {
    && previous.session == requested.session && previous.endpoint == requested.endpoint
    && previous.thread == requested.thread && previous.mention == requested.mention
    && SameSubscribed(canon, previous.channels, requested.channels)
  }

  predicate LocalEndpoint(endpoint: string) { "unix:///" <= endpoint }

  /** The checks made before any probe or write. `loaded` is false when the file exists but is unreadable. */
  function Plan(canon: string -> string, r: BindRequest, session: string, stored: Option<Binding>,
                loaded: bool): BindPlan {
    if !LocalEndpoint(r.endpoint) || r.thread == "" then Reject else
    var channels := Normalized(canon, r.channels);
    if channels.None? then Reject else
    var route := Route(session, r.endpoint, r.thread, r.mention, channels.value);
    if !r.reuse then Fresh(route)
    else if !r.requireAvailable || r.replay || !loaded then Reject
    else if stored.None? || !stored.value.enabled then Fresh(route)
    else if SameRoute(canon, stored.value.route, route) then Reuse(stored.value)
    else Conflict(Differences(canon, stored.value.route, route))
  }

  /** The reported list holds exactly the settings that differ, so a rejection is never empty. */
  lemma ConflictNamesDifferences(canon: string -> string, previous: Route, requested: Route)
    ensures var d := Differences(canon, previous, requested);
      && (Session in d <==> previous.session != requested.session)
      && (Endpoint in d <==> previous.endpoint != requested.endpoint)
      && (Thread in d <==> previous.thread != requested.thread)
      && (Mention in d <==> previous.mention != requested.mention)
      && (Channels in d <==> !SameSubscribed(canon, previous.channels, requested.channels))
      && (d == [] <==> SameRoute(canon, previous, requested))
  {
    NamedWhen(previous.session != requested.session, previous.endpoint != requested.endpoint,
              previous.thread != requested.thread, previous.mention != requested.mention,
              !SameSubscribed(canon, previous.channels, requested.channels));
  }

  /** A request to reuse that passes every check made before looking at the stored binding. */
  ghost predicate WellFormedReuse(canon: string -> string, r: BindRequest) {
    && r.reuse && r.requireAvailable && !r.replay && LocalEndpoint(r.endpoint) && r.thread != ""
    && Normalized(canon, r.channels).Some?
  }

  /** The request names this very route. */
  ghost predicate AsksFor(canon: string -> string, r: BindRequest, session: string, route: Route) {
    && route.session == session && route.endpoint == r.endpoint
    && route.thread == r.thread && route.mention == r.mention
    && Elements(route.channels) == (set c | c in r.channels :: canon(c))
  }

  /** Reuse is accepted exactly when the requested destination and channel set are the existing ones. */
  lemma ReuseIsSameRoute(canon: string -> string, r: BindRequest, session: string, existing: Binding)
    requires Idempotent(canon) && IsNormal(canon, existing.route.channels) && existing.enabled
    requires WellFormedReuse(canon, r)
    ensures Plan(canon, r, session, Some(existing), true) == Reuse(existing)
      <==> AsksFor(canon, r, session, existing.route)
  {
    var channels := Normalized(canon, r.channels).value;
    assert IsNormal(canon, channels);
    SameSubscribedIsSetEquality(canon, existing.route.channels, channels);
    NormalizedElements(canon, r.channels);
  }

  lemma NormalizedElements(canon: string -> string, channels: seq<string>)
    requires Normalized(canon, channels).Some?
    ensures Elements(Normalized(canon, channels).value) == (set c | c in channels :: canon(c))
  {
    NormalizedIs(canon, channels);
  }

  /** A reused binding delivers exactly the messages the request asked for. */
  lemma ReuseAddressesTheSame(canon: string -> string, sameNick: (string, string) -> bool, mentions: (string,
                              string) -> bool,
                              previous: Route, requested: Route, msg: Msg, nick: string)
    requires Idempotent(canon) && IsNormal(canon, previous.channels) && IsNormal(canon, requested.channels)
    requires SameRoute(canon, previous, requested)
    ensures AddressedTo(canon, sameNick, mentions, msg, nick, previous)
      <==> AddressedTo(canon, sameNick, mentions, msg, nick, requested)
  {
    SameSubscribedIsSetEquality(canon, previous.channels, requested.channels);
    SubscribedIsMembership(canon, msg.target, previous.channels);
    SubscribedIsMembership(canon, msg.target, requested.channels);
    var c := canon(msg.target);
    assert c in previous.channels <==> c in Elements(previous.channels);
    assert c in requested.channels <==> c in Elements(requested.channels);
  }
}
