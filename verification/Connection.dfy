/** One IRC connection: its fields, the methods that register and resolve requests, and the handler
    of server lines. Each method is one path of the board's steps, which other goroutines interleave. */
module Connection {
  import opened Prelude
  import opened Pending
  import W = Wire

  /** What a server line does besides resolving requests. */
  datatype Effect =
    | Nothing
    | Pong(payload: string)
    | Heard(kind: string, target: string, nick: string, text: string)

  /** The nick of a "nick!user@host" prefix. */
  function NickOf(prefix: string): (n: string)
    ensures n <= prefix && '!' !in n
    ensures |n| < |prefix| ==> prefix[|n|] == '!'
  {
    if prefix == "" || prefix[0] == '!' then "" else [prefix[0]] + NickOf(prefix[1..])
  }

  function Param(params: seq<string>, i: nat): string { if i < |params| then params[i] else "" }

  function EffectOf(prefix: string, command: string, params: seq<string>): Effect {
    if command == "PING" then Pong(Param(params, 0))
    else if command == "PRIVMSG" && |params| >= 2 then
      var nick := NickOf(prefix);
      var channel := "#" <= params[0];
      Heard(if channel then "channel" else "direct", if channel then params[0] else nick, nick, params[|params| - 1])
    else Nothing
  }

  /** The channels this client is known to be in: each JOIN the server echoes for its own nick adds one. */
  function Membership(channels: set<string>, own: string, prefix: string, command: string,
                      params: seq<string>): set<string> {
    if command == "JOIN" && params != [] && NickOf(prefix) == own then channels + {params[0]} else channels
  }

  /** The request for which a server line lists members, if one is pending. */
  function Listed(b: Board, command: string, params: seq<string>): Option<nat> {
    if command != "353" || |params| < 3 then None else
    var key := NamesKey(params[2]);
    if key in b.pending && b.pending[key] < |b.reqs| then Some(b.pending[key]) else None
  }

  /** The board after a line's member names, if it carries any, have been collected. */
  function Gather(b: Board, command: string, params: seq<string>): Board {
    match Listed(b, command, params)
    case None => b
    case Some(r) =>
      var words := W.Fields(params[|params| - 1]);
      b.(reqs := b.reqs[r := b.reqs[r].(names := b.reqs[r].names + words)])
  }

  /** One resolution carried through: its own three steps when the key is pending, else none that show. */
  function ResolveLabels(b: Board, key: string, error: Option<Code>, cause: Cause): seq<Label> {
    if key in b.pending then [Resolve(key, error, cause), Write(|b.claims|), Close(|b.claims|)]
    else [Resolve(key, error, cause)]
  }

  function Through(b: Board, key: string, error: Option<Code>, cause: Cause): Option<Board> {
    Run(b, ResolveLabels(b, key, error, cause))
  }

  /** The verdicts of a line from the i-th on, carried through one after another. */
  function Settle(b: Board, verdicts: seq<Verdict>, i: nat, cause: Cause): Option<Board>
    decreases |verdicts| - i
  {
    if i >= |verdicts| then Some(b) else
    var t := Through(b, verdicts[i].key, verdicts[i].error, cause);
    if t.None? then None else Settle(t.value, verdicts, i + 1, cause)
  }

  lemma {:induction false} RunStep(b: Board, labels: seq<Label>, l: Label)
    ensures Run(b, labels + [l])
         == if Run(b, labels).None? then None else Step(Run(b, labels).value, l)
  {
    assert (labels + [l])[..|labels|] == labels;
  }

  lemma {:induction false} RunBoth(b: Board, first: seq<Label>, second: seq<Label>)
    requires Run(b, first).Some?
    ensures Run(b, first + second) == Run(Run(b, first).value, second)
  {
    if second == [] {
      assert first + second == first;
    } else {
      var init, last := second[..|second| - 1], second[|second| - 1];
      RunBoth(b, first, init);
      assert first + second == first + init + [last];
      RunStep(b, first + init, last);
    }
  }

  /** Handling a line is a path of the board, so everything proved of runs holds of it. */
  lemma {:induction false} SettleIsAPath(b: Board, verdicts: seq<Verdict>, i: nat, cause: Cause)
    returns (labels: seq<Label>)
    requires Settle(b, verdicts, i, cause).Some?
    ensures Run(b, labels) == Settle(b, verdicts, i, cause)
    ensures forall l :: l in labels ==> !l.Collect?
    decreases |verdicts| - i
  {
    if i >= |verdicts| {
      labels := [];
    } else {
      var first := ResolveLabels(b, verdicts[i].key, verdicts[i].error, cause);
      var rest := SettleIsAPath(Run(b, first).value, verdicts, i + 1, cause);
      RunBoth(b, first, rest);
      labels := first + rest;
    }
  }

  /** So is handling a whole line, names and all. */
  lemma HandleIsAPath(b: Board, command: string, params: seq<string>) returns (labels: seq<Label>)
    requires Settle(Gather(b, command, params), Verdicts(command, params), 0, Reply(command, params)).Some?
    ensures Run(b, labels) == Settle(Gather(b, command, params), Verdicts(command, params), 0, Reply(command, params))
    ensures forall r: nat, words :: Collect(r, words) in labels ==>
      Listed(b, command, params) == Some(r) && words == W.Fields(params[|params| - 1])
  {
    match Listed(b, command, params) {
      case None =>
        labels := SettleIsAPath(b, Verdicts(command, params), 0, Reply(command, params));
      case Some(r) =>
        var first := Collect(r, W.Fields(params[|params| - 1]));
        RunStep(b, [], first);
        assert Verdicts(command, params) == [];
        labels := [] + [first];
    }
  }

  lemma ThroughIs(b: Board, key: string, error: Option<Code>, cause: Cause, t: Board)
    requires Inv(b) && Justified(cause, key, error)
    requires key !in b.pending ==> t == b
    requires key in b.pending ==>
      var r := b.pending[key];
      r < |b.reqs| && t == b.(pending := Without(b.pending, key),
                 reqs := b.reqs[r := b.reqs[r].(error := error, done := true)],
                 claims := b.claims + [Claim(r, error, cause, |b.reqs|, Closed)])
    ensures Through(b, key, error, cause) == Some(t) && Inv(t)
  {
    var first := Resolve(key, error, cause);
    RunStep(b, [], first);
    assert [] + [first] == [first];
    if key in b.pending {
      assert PendingOk(b, key);
      var n := |b.claims|;
      var taken := Step(b, first).value;
      RunStep(b, [first], Write(n));
      RunStep(b, [first, Write(n)], Close(n));
      assert [first] + [Write(n)] == [first, Write(n)];
      assert [first, Write(n)] + [Close(n)] == [first, Write(n), Close(n)];
      var written := Step(taken, Write(n)).value;
      var closed := Step(written, Close(n)).value;
      assert closed.claims == t.claims && closed.reqs == t.reqs;
    }
    RunKeepsInv(b, ResolveLabels(b, key, error, cause));
  }

  class Conn {
    var nick: string
    var registered: bool
    var channels: set<string>
    var pending: map<string, nat>
    var reqs: seq<Request>
    var claims: seq<Claim>
    var lastPong: int

    ghost function Board(): Board reads this { Pending.Board(pending, reqs, claims, false) }

    constructor (own: string)
      ensures nick == own && !registered && channels == {} && Board() == EMPTY
    {
      nick, registered, channels := own, false, {};
      pending, reqs, claims, lastPong := map[], [], [], 0;
    }

    method RegisterPending(key: string) returns (r: nat)
      modifies this`pending, this`reqs
      ensures r == old(|reqs|) && Step(old(Board()), Register(key)) == Some(Board())
    {
      r := |reqs|;
      reqs := reqs + [Request(key, false, None, Waiting, [])];
      pending := pending[key := r];
    }

    method ResolvePending(key: string, error: Option<Code>, cause: Cause)
      requires Inv(Board()) && Justified(cause, key, error)
      modifies this`pending, this`reqs, this`claims
      ensures Through(old(Board()), key, error, cause) == Some(Board()) && Inv(Board())
      ensures pending == Without(old(pending), key)
    {
      ghost var b := Board();
      if key in pending {
        assert PendingOk(b, key);
        var r := pending[key];
        pending := Without(pending, key);
        claims := claims + [Claim(r, error, cause, |reqs|, Closed)];
        reqs := reqs[r := reqs[r].(error := error, done := true)];
      }
      ThroughIs(b, key, error, cause, Board());
      assert key !in b.pending ==> Without(b.pending, key) == b.pending;
    }

    /** Waiting ends with the request's error once it is done, or with a timeout at any moment. */
    method Wait(r: nat, expires: bool) returns (outcome: Caller)
      requires r < |reqs| && reqs[r].caller == Waiting && (reqs[r].done || expires)
      modifies this`reqs
      ensures r < |reqs| && outcome == reqs[r].caller != Waiting
      ensures Step(old(Board()), if expires then Expire(r) else Wake(r)) == Some(Board())
    {
      outcome := if expires then TimedOut else Woken(reqs[r].error);
      reqs := reqs[r := reqs[r].(caller := outcome)];
    }

    /** A direct message that nobody refused in time counts as delivered; its key is resolved so that
        a refusal coming later finds nothing. */
    method GiveUpOnDm(target: string)
      requires Inv(Board())
      modifies this`pending, this`reqs, this`claims
      ensures Through(old(Board()), DmKey(target), None, DmExpired(target)) == Some(Board()) && Inv(Board())
      ensures DmKey(target) !in pending
    {
      ResolvePending(DmKey(target), None, DmExpired(target));
    }

    /** One line from the server. A failing reply to a ping is not noticed. */
    method Handle(prefix: string, command: string, params: seq<string>, now: int) returns (effect: Effect)
      requires Inv(Board())
      modifies this
      ensures effect == EffectOf(prefix, command, params)
      ensures Settle(Gather(old(Board()), command, params), Verdicts(command, params), 0, Reply(command, params))
           == Some(Board())
      ensures Inv(Board())
      ensures lastPong == if command == "PING" then now else old(lastPong)
      ensures channels == Membership(old(channels), old(nick), prefix, command, params)
      ensures registered <==> old(registered) || command == "001"
      ensures nick == if command == "001" && params != [] then params[0] else old(nick)
    {
      effect := Nothing;
      match command
      case "PING" =>
        effect := Pong(Param(params, 0));
        lastPong := now;
      case "JOIN" =>
        if NickOf(prefix) == nick && |params| > 0 { channels := channels + {params[0]}; }
      case "PRIVMSG" =>
        if |params| < 2 { return; }
        var target, text := params[0], params[|params| - 1];
        var from := NickOf(prefix);
        var kind := "direct";
        if "#" <= target { kind := "channel"; } else { target := from; }
        effect := Heard(kind, target, from, text);
      case "001" =>
        registered := true;
        if |params| > 0 { nick := params[0]; }
        SettleAll(command, params);
      case "353" =>
        if |params| < 3 { return; }
        var key := NamesKey(params[2]);
        if key in pending {
          ghost var b := Board();
          assert PendingOk(b, key);
          var r := pending[key];
          reqs := reqs[r := reqs[r].(names := reqs[r].names + W.Fields(params[|params| - 1]))];
          CollectKeeps(b, r, W.Fields(params[|params| - 1]), Board());
        }
      case _ =>
        SettleAll(command, params);
    }

    method SettleAll(command: string, params: seq<string>)
      requires Inv(Board())
      modifies this`pending, this`reqs, this`claims
      ensures Settle(old(Board()), Verdicts(command, params), 0, Reply(command, params)) == Some(Board())
      ensures Inv(Board())
    {
      var verdicts, cause := Verdicts(command, params), Reply(command, params);
      ghost var all := Settle(Board(), verdicts, 0, cause);
      for i := 0 to |verdicts|
        invariant Inv(Board()) && Settle(Board(), verdicts, i, cause) == all
      {
        var v := verdicts[i];
        assert v == Verdict(v.key, v.error) && v in verdicts;
        ResolvePending(v.key, v.error, cause);
      }
    }
  }
}
