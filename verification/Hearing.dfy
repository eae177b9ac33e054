/** What comes over one connection: answers end the requests they are for, and what one client says is
    what the others hear. */
module Hearing {
  import opened Prelude
  import opened Pending
  import opened Connection
  import Channels
  import Send
  import S = SplitUTF8
  import W = Wire

  // ----- answers -----

  lemma ThroughEnds(b: Board, key: string, error: Option<Code>, cause: Cause, t: Board)
    requires Inv(b) && Justified(cause, key, error) && Through(b, key, error, cause) == Some(t)
    ensures Inv(t) && t.pending == Without(b.pending, key) && |t.reqs| == |b.reqs|
    ensures key in b.pending ==>
      b.pending[key] < |b.reqs| && t.reqs[b.pending[key]].done && t.reqs[b.pending[key]].error == error
    ensures forall r :: 0 <= r < |b.reqs| && (key in b.pending ==> r != b.pending[key]) ==> t.reqs[r] == b.reqs[r]
  {
    if key in b.pending {
      assert PendingOk(b, key);
      var r := b.pending[key];
      ThroughIs(b, key, error, cause,
        b.(pending := Without(b.pending, key), reqs := b.reqs[r := b.reqs[r].(error := error, done := true)],
           claims := b.claims + [Claim(r, error, cause, |b.reqs|, Closed)]));
    } else {
      assert Without(b.pending, key) == b.pending;
      ThroughIs(b, key, error, cause, b);
    }
  }

  lemma SettleOne(b: Board, vs: seq<Verdict>, i: nat, cause: Cause, t: Board) returns (m: Board)
    requires i < |vs| && Settle(b, vs, i, cause) == Some(t)
    ensures Through(b, vs[i].key, vs[i].error, cause) == Some(m) && Settle(m, vs, i + 1, cause) == Some(t)
  {
    m := Through(b, vs[i].key, vs[i].error, cause).value;
  }

  /** The request that a verdict finds has ended with it once the verdicts from there on are carried out,
      and its key is free; verdicts on other keys leave it alone. */
  lemma {:induction false} SettleEnds(b: Board, vs: seq<Verdict>, i: nat, j: nat, cause: Cause, t: Board)
    requires Inv(b) && i <= j < |vs| && Settle(b, vs, i, cause) == Some(t) && vs[j].key in b.pending
    requires forall k :: 0 <= k < |vs| ==> Justified(cause, vs[k].key, vs[k].error)
    requires forall k :: 0 <= k < |vs| && k != j ==> vs[k].key != vs[j].key
    ensures var r := b.pending[vs[j].key];
      r < |b.reqs| == |t.reqs| && t.reqs[r].done && t.reqs[r].error == vs[j].error && vs[j].key !in t.pending
    decreases |vs| - i
  {
    var m := SettleOne(b, vs, i, cause, t);
    ThroughEnds(b, vs[i].key, vs[i].error, cause, m);
    if i < j { SettleEnds(m, vs, i + 1, j, cause, t); }
    else { SettleLeaves(m, vs, i + 1, cause, t, b.pending[vs[j].key]); }
  }

  /** What is done and no longer pending is left alone. */
  lemma {:induction false} SettleLeaves(b: Board, vs: seq<Verdict>, i: nat, cause: Cause, t: Board, r: nat)
    requires Inv(b) && i <= |vs| && Settle(b, vs, i, cause) == Some(t) && r < |b.reqs| && b.reqs[r].done
    requires forall k :: 0 <= k < |vs| ==> Justified(cause, vs[k].key, vs[k].error)
    ensures |t.reqs| == |b.reqs| && t.reqs[r] == b.reqs[r] && t.pending.Keys <= b.pending.Keys
    decreases |vs| - i
  {
    if i < |vs| {
      var m := SettleOne(b, vs, i, cause, t);
      ThroughEnds(b, vs[i].key, vs[i].error, cause, m);
      if vs[i].key in b.pending { assert PendingOk(b, vs[i].key); }
      SettleLeaves(m, vs, i + 1, cause, t, r);
    }
  }

  /** A line that answers a pending request ends it, with the error the line calls for, and frees its key. */
  lemma AnswerEnds(b: Board, command: string, params: seq<string>, j: nat, t: Board)
    requires Inv(b) && j < |Verdicts(command, params)| && Verdicts(command, params)[j].key in b.pending
    requires Settle(Gather(b, command, params), Verdicts(command, params), 0, Reply(command, params)) == Some(t)
    ensures var v := Verdicts(command, params)[j];
      var r := b.pending[v.key];
      r < |b.reqs| == |t.reqs| && t.reqs[r].done && t.reqs[r].error == v.error && v.key !in t.pending
  {
    var vs := Verdicts(command, params);
    if |vs| == 2 { KeysDiffer(params[1], params[1]); }
    assert forall k :: 0 <= k < |vs| ==> vs[k] in vs && vs[k] == Verdict(vs[k].key, vs[k].error);
    SettleEnds(b, vs, 0, j, Reply(command, params), t);
  }

  /** A line of member names for a channel whose listing is pending adds exactly the names in it to what
      that request has, and nothing to any other; it ends nothing. */
  lemma NamesAreHeard(b: Board, own: string, symbol: string, channel: string, names: seq<string>, t: Board)
    requires Inv(b) && W.AllMiddle(names)
    requires t == Gather(b, "353", [own, symbol, channel, W.Words(names)])
    ensures NamesKey(channel) !in b.pending ==> t == b
    ensures NamesKey(channel) in b.pending ==>
      var r := b.pending[NamesKey(channel)];
      r < |b.reqs| && t == b.(reqs := b.reqs[r := b.reqs[r].(names := b.reqs[r].names + names)])
    ensures Verdicts("353", [own, symbol, channel, W.Words(names)]) == []
  {
    W.FieldsOfWords(names);
    if NamesKey(channel) in b.pending { assert PendingOk(b, NamesKey(channel)); }
  }

  // ----- what is heard -----

  lemma {:induction false} NickBefore(nick: string, rest: string)
    requires '!' !in nick && (rest == "" || rest[0] == '!')
    ensures NickOf(nick + rest) == nick
  {
    if nick != "" {
      assert (nick + rest)[1..] == nick[1..] + rest;
      NickBefore(nick[1..], rest);
    }
  }

  /** A message somebody sends, as the server passes it on under the sender's prefix. */
  function Passed(nick: string, host: string, target: string, part: string): string {
    W.WithPrefix(Some(nick + "!" + host), Send.Line(target, part))
  }

  lemma PassedParses(upper: string -> string, nick: string, host: string, target: string, part: string)
    requires W.Middle(target) && W.Survives(part) && upper("PRIVMSG") == "PRIVMSG"
    requires ' ' !in nick + host
    ensures W.Parse(upper, Passed(nick, host, target, part))
         == Some(W.Message(nick + "!" + host, "PRIVMSG", [target, part], W.NeedsColon(part)))
  {
    var params, prefix := [target, part], nick + "!" + host;
    forall k | 0 <= k < |prefix| ensures prefix[k] != ' ' {
      if k < |nick| { assert prefix[k] == (nick + host)[k]; }
      if k > |nick| { assert prefix[k] == (nick + host)[k - 1]; }
    }
    assert params[..1] == [target] && [target] + [part] == params;
    assert W.AllMiddle(["PRIVMSG"] + [target]);
    W.RoundTrip(upper, Some(prefix), "PRIVMSG", params);
  }

  lemma ChannelHears(upper: string -> string, nick: string, host: string, target: string, part: string)
    requires W.Middle(target) && target[0] == '#' && W.Survives(part) && upper("PRIVMSG") == "PRIVMSG"
    requires '!' !in nick && ' ' !in nick + host
    ensures var parsed := W.Parse(upper, Passed(nick, host, target, part));
      parsed.Some? && EffectOf(parsed.value.prefix, parsed.value.command, parsed.value.params)
                   == Heard("channel", target, nick, part)
  {
    PassedParses(upper, nick, host, target, part);
    NickBefore(nick, "!" + host);
    assert nick + "!" + host == nick + ("!" + host);
  }

  /** What is said in a channel is heard there: for typed text, every line that is sent and passed on is
      heard as the sender's, in that channel, with its part of the text. */
  lemma SaidIsHeard(upper: string -> string, nick: string, host: string, target: string, text: string, k: nat)
    requires Channels.WellShaped(target) && Send.Typed(text) && upper("PRIVMSG") == "PRIVMSG"
    requires '!' !in nick && ' ' !in nick + host && k < |Send.Parts(text)|
    ensures var parsed := W.Parse(upper, Passed(nick, host, target, Send.Parts(text)[k]));
      parsed.Some? && EffectOf(parsed.value.prefix, parsed.value.command, parsed.value.params)
                   == Heard("channel", target, nick, Send.Parts(text)[k])
  {
    Send.TypedSurvives(text, k);
    Send.TargetIsMiddle(target);
    ChannelHears(upper, nick, host, target, Send.Parts(text)[k]);
  }

  /** A message to a nick is heard as direct, and as coming from the sender. */
  lemma DirectIsHeard(upper: string -> string, nick: string, host: string, target: string, part: string)
    requires W.Middle(target) && target[0] != '#' && W.Survives(part) && upper("PRIVMSG") == "PRIVMSG"
    requires '!' !in nick && ' ' !in nick + host
    ensures var parsed := W.Parse(upper, Passed(nick, host, target, part));
      parsed.Some? && EffectOf(parsed.value.prefix, parsed.value.command, parsed.value.params)
                   == Heard("direct", nick, nick, part)
  {
    PassedParses(upper, nick, host, target, part);
    NickBefore(nick, "!" + host);
    assert nick + "!" + host == nick + ("!" + host);
  }

  /** A ping is answered with its own token. */
  lemma PingIsAnswered(upper: string -> string, prefix: Option<string>, token: string)
    requires W.OneWord(prefix) && W.Survives(token) && upper("PING") == "PING"
    ensures var parsed := W.Parse(upper, W.WithPrefix(prefix, W.Format("PING", [token])));
      parsed.Some? && EffectOf(parsed.value.prefix, parsed.value.command, parsed.value.params) == Pong(token)
  {
    assert [token][..0] == [] && ["PING"] + [] == ["PING"] && [] + [token] == [token];
    W.RoundTrip(upper, prefix, "PING", [token]);
  }

  /** A client is known to be in a channel once the server says so under its own nick; other members,
      and other lines, make no difference. */
  lemma MembershipIs(channels: set<string>, own: string, nick: string, rest: string, command: string,
                     params: seq<string>)
    requires '!' !in nick && (rest == "" || rest[0] == '!')
    ensures command == "JOIN" && params != [] && nick == own ==>
      Membership(channels, own, nick + rest, command, params) == channels + {params[0]}
    ensures command != "JOIN" || params == [] || nick != own ==>
      Membership(channels, own, nick + rest, command, params) == channels
  {
    NickBefore(nick, rest);
  }
}
