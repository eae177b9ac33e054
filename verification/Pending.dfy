/** Requests waiting for the server's answer on one IRC connection. Callers register, the read loop
    resolves, and anybody may give up; the lock covers only the pending map. */
module Pending {
  import opened Prelude

  datatype Code = NickInUse | NickInvalid | NoSuchNick | JoinFailed | Broken

  /** Why a key was resolved: a line from the server, a send that failed, or a direct message whose
      time ran out. */
  datatype Cause =
    | Reply(command: string, params: seq<string>)
    | SendFailed
    | DmExpired(target: string)

  const REGISTER_KEY := "__register__"
  function JoinKey(channel: string): string { "join:" + channel }
  function NamesKey(channel: string): string { "names:" + channel }
  function DmKey(target: string): string { "privmsg:" + target }

  datatype Verdict = Verdict(key: string, error: Option<Code>)

  /** What a server line resolves, in order. */
  function Verdicts(command: string, params: seq<string>): seq<Verdict> {
    if command == "001" then [Verdict(REGISTER_KEY, None)]
    else if command == "433" then [Verdict(REGISTER_KEY, Some(NickInUse))]
    else if command == "432" then [Verdict(REGISTER_KEY, Some(NickInvalid))]
    else if command == "366" then
      if |params| < 2 then [] else [Verdict(NamesKey(params[1]), None), Verdict(JoinKey(params[1]), None)]
    else if command == "401" then [Verdict(DmKey(if |params| > 1 then params[1] else ""), Some(NoSuchNick))]
    else if command in {"403", "473", "474", "475"} then
      if |params| < 2 then [] else [Verdict(JoinKey(params[1]), Some(JoinFailed))]
    else []
  }

  predicate Justified(cause: Cause, key: string, error: Option<Code>) {
    match cause
    case Reply(command, params) => Verdict(key, error) in Verdicts(command, params)
    case SendFailed => error == Some(Broken)
    case DmExpired(target) => key == DmKey(target) && error == None
  }

  // ----- the board -----

  datatype Caller = Waiting | TimedOut | Woken(error: Option<Code>)

  datatype Request = Request(key: string, done: bool, error: Option<Code>, caller: Caller, names: seq<string>)

  datatype Stage = Taken | Written | Closed

  /** A resolution that found its request: `asOf` counts the requests registered by then. */
  datatype Claim = Claim(req: nat, error: Option<Code>, cause: Cause, asOf: nat, stage: Stage)

  /** Requests and claims are never forgotten here; `panicked` records a second close of one channel. */
  datatype Board = Board(pending: map<string, nat>, reqs: seq<Request>, claims: seq<Claim>, panicked: bool)

  const EMPTY := Board(map[], [], [], false)

  datatype Label =
    | Register(key: string)
    | Resolve(key: string, error: Option<Code>, cause: Cause)
    | Write(claim: nat)
    | Close(claim: nat)
    | Collect(req: nat, words: seq<string>)
    | Wake(req: nat)
    | Expire(req: nat)

  function Without(pending: map<string, nat>, key: string): map<string, nat> {
    map k | k in pending && k != key :: pending[k]
  }

  function DoResolve(b: Board, key: string, error: Option<Code>, cause: Cause): Option<Board> {
    if !Justified(cause, key, error) then None
    else if key !in b.pending then Some(b)
    else Some(b.(pending := Without(b.pending, key),
                 claims := b.claims + [Claim(b.pending[key], error, cause, |b.reqs|, Taken)]))
  }

  function DoWrite(b: Board, c: nat): Option<Board> {
    if c >= |b.claims| || b.claims[c].stage != Taken || b.claims[c].req >= |b.reqs| then None
    else
      var r := b.claims[c].req;
      Some(b.(reqs := b.reqs[r := b.reqs[r].(error := b.claims[c].error)],
              claims := b.claims[c := b.claims[c].(stage := Written)]))
  }

  function DoClose(b: Board, c: nat): Option<Board> {
    if c >= |b.claims| || b.claims[c].stage != Written || b.claims[c].req >= |b.reqs| then None
    else
      var r := b.claims[c].req;
      Some(b.(panicked := b.panicked || b.reqs[r].done,
              reqs := b.reqs[r := b.reqs[r].(done := true)],
              claims := b.claims[c := b.claims[c].(stage := Closed)]))
  }

  function DoReturn(b: Board, r: nat, woken: bool): Option<Board> {
    if r >= |b.reqs| || b.reqs[r].caller != Waiting || (woken && !b.reqs[r].done) then None
    else Some(b.(reqs := b.reqs[r := b.reqs[r].(caller := if woken then Woken(b.reqs[r].error) else TimedOut)]))
  }

  /** The read loop has found this request in the map and appends to it, perhaps after it was resolved. */
  function DoCollect(b: Board, r: nat, words: seq<string>): Option<Board> {
    if r >= |b.reqs| then None else Some(b.(reqs := b.reqs[r := b.reqs[r].(names := b.reqs[r].names + words)]))
  }

  function Step(b: Board, l: Label): Option<Board> {
    match l
    case Register(key) =>
      Some(b.(pending := b.pending[key := |b.reqs|], reqs := b.reqs + [Request(key, false, None, Waiting, [])]))
    case Resolve(key, error, cause) => DoResolve(b, key, error, cause)
    case Write(c) => DoWrite(b, c)
    case Close(c) => DoClose(b, c)
    case Collect(r, words) => DoCollect(b, r, words)
    case Wake(r) => DoReturn(b, r, true)
    case Expire(r) => DoReturn(b, r, false)
  }

  function Run(b: Board, labels: seq<Label>): Option<Board> {
    if labels == [] then Some(b) else
    var before := Run(b, labels[..|labels| - 1]);
    if before.None? then None else Step(before.value, labels[|labels| - 1])
  }

  // ----- the invariant -----

  /** `r` was the newest request of its key when `n` requests had been registered. */
  ghost predicate Newest(reqs: seq<Request>, r: nat, n: nat) {
    r < n <= |reqs| && forall q :: r < q < n ==> reqs[q].key != reqs[r].key
  }

  ghost predicate Unclaimed(b: Board, r: nat) { forall c :: 0 <= c < |b.claims| ==> b.claims[c].req != r }

  ghost predicate PendingOk(b: Board, key: string)
    requires key in b.pending
  {
    var r := b.pending[key];
    Newest(b.reqs, r, |b.reqs|) && b.reqs[r].key == key && !b.reqs[r].done && Unclaimed(b, r)
  }

  ghost predicate ClaimOk(b: Board, c: nat)
    requires c < |b.claims|
  {
    var k := b.claims[c];
    && Newest(b.reqs, k.req, k.asOf)
    && Justified(k.cause, b.reqs[k.req].key, k.error)
    && (k.stage != Taken ==> b.reqs[k.req].error == k.error)
    && (b.reqs[k.req].done <==> k.stage == Closed)
    && forall d :: 0 <= d < |b.claims| && d != c ==> b.claims[d].req != k.req
  }

  ghost predicate RequestOk(b: Board, r: nat)
    requires r < |b.reqs|
  {
    && (b.reqs[r].done ==> exists c :: 0 <= c < |b.claims| && b.claims[c].req == r)
    && (b.reqs[r].caller.Woken? ==> b.reqs[r].done && b.reqs[r].caller.error == b.reqs[r].error)
  }

  ghost predicate Inv(b: Board) {
    && !b.panicked
    && (forall key :: key in b.pending ==> PendingOk(b, key))
    && (forall c :: 0 <= c < |b.claims| ==> ClaimOk(b, c))
    && (forall r :: 0 <= r < |b.reqs| ==> RequestOk(b, r))
  }

  lemma RegisterKeeps(b: Board, key: string, t: Board)
    requires Inv(b) && Step(b, Register(key)) == Some(t)
    ensures Inv(t)
  {
    forall k | k in t.pending ensures PendingOk(t, k) {
      if k == key {
        forall c | 0 <= c < |t.claims| ensures t.claims[c].req != |b.reqs| { assert ClaimOk(b, c); }
      } else {
        assert PendingOk(b, k);
      }
    }
    forall c | 0 <= c < |t.claims| ensures ClaimOk(t, c) { assert ClaimOk(b, c); }
    forall r | 0 <= r < |t.reqs| ensures RequestOk(t, r) { if r < |b.reqs| { assert RequestOk(b, r); } }
  }

  lemma ResolveKeeps(b: Board, key: string, error: Option<Code>, cause: Cause, t: Board)
    requires Inv(b) && DoResolve(b, key, error, cause) == Some(t)
    ensures Inv(t)
  {
    if key in b.pending {
      assert PendingOk(b, key);
      forall k | k in t.pending ensures PendingOk(t, k) { assert PendingOk(b, k); }
      forall c | 0 <= c < |t.claims| ensures ClaimOk(t, c) { if c < |b.claims| { assert ClaimOk(b, c); } }
      forall r | 0 <= r < |t.reqs| ensures RequestOk(t, r) {
        assert RequestOk(b, r);
        if c :| 0 <= c < |b.claims| && b.claims[c].req == r { assert t.claims[c].req == r; }
      }
    }
  }

  /** Two boards that differ only in how far one claim on request `r` has got. */
  ghost predicate Progressed(b: Board, c: nat, t: Board)
    requires c < |b.claims| && b.claims[c].req < |b.reqs|
  {
    && t.pending == b.pending && |t.reqs| == |b.reqs| && |t.claims| == |b.claims|
    && (forall r :: 0 <= r < |b.reqs| ==> t.reqs[r].key == b.reqs[r].key)
    && (forall r :: 0 <= r < |b.reqs| && r != b.claims[c].req ==> t.reqs[r] == b.reqs[r])
    && (forall d :: 0 <= d < |b.claims| ==> t.claims[d] == b.claims[d].(stage := t.claims[d].stage))
    && (forall d :: 0 <= d < |b.claims| && d != c ==> t.claims[d] == b.claims[d])
  }

  lemma ProgressKeeps(b: Board, c: nat, t: Board)
    requires Inv(b) && c < |b.claims| && b.claims[c].req < |b.reqs| && Progressed(b, c, t) && !t.panicked
    requires ClaimOk(t, c) && RequestOk(t, b.claims[c].req)
    ensures Inv(t)
  {
    forall k | k in t.pending ensures PendingOk(t, k) { assert PendingOk(b, k); }
    forall d | 0 <= d < |t.claims| ensures ClaimOk(t, d) { assert ClaimOk(b, d); }
    forall r | 0 <= r < |t.reqs| ensures RequestOk(t, r) {
      assert RequestOk(b, r);
      if d :| 0 <= d < |b.claims| && b.claims[d].req == r { assert t.claims[d].req == r; }
    }
  }

  lemma WriteKeeps(b: Board, c: nat, t: Board)
    requires Inv(b) && DoWrite(b, c) == Some(t)
    ensures Inv(t)
  {
    assert ClaimOk(b, c) && RequestOk(b, b.claims[c].req);
    ProgressKeeps(b, c, t);
  }

  lemma CloseKeeps(b: Board, c: nat, t: Board)
    requires Inv(b) && DoClose(b, c) == Some(t)
    ensures Inv(t)
  {
    assert ClaimOk(b, c) && RequestOk(b, b.claims[c].req);
    assert t.claims[c].req == b.claims[c].req;
    ProgressKeeps(b, c, t);
  }

  lemma ReturnKeeps(b: Board, r: nat, woken: bool, t: Board)
    requires Inv(b) && DoReturn(b, r, woken) == Some(t)
    ensures Inv(t)
  {
    forall k | k in t.pending ensures PendingOk(t, k) { assert PendingOk(b, k); }
    forall d | 0 <= d < |t.claims| ensures ClaimOk(t, d) { assert ClaimOk(b, d); }
    forall q | 0 <= q < |t.reqs| ensures RequestOk(t, q) { assert RequestOk(b, q); }
  }

  lemma CollectKeeps(b: Board, r: nat, words: seq<string>, t: Board)
    requires Inv(b) && DoCollect(b, r, words) == Some(t)
    ensures Inv(t)
  {
    forall k | k in t.pending ensures PendingOk(t, k) { assert PendingOk(b, k); }
    forall d | 0 <= d < |t.claims| ensures ClaimOk(t, d) { assert ClaimOk(b, d); }
    forall q | 0 <= q < |t.reqs| ensures RequestOk(t, q) { assert RequestOk(b, q); }
  }

  lemma StepKeepsInv(b: Board, l: Label, t: Board)
    requires Inv(b) && Step(b, l) == Some(t)
    ensures Inv(t)
  {
    match l
    case Register(key) => RegisterKeeps(b, key, t);
    case Resolve(key, error, cause) => ResolveKeeps(b, key, error, cause, t);
    case Write(c) => WriteKeeps(b, c, t);
    case Close(c) => CloseKeeps(b, c, t);
    case Collect(r, words) => CollectKeeps(b, r, words, t);
    case Wake(r) => ReturnKeeps(b, r, true, t);
    case Expire(r) => ReturnKeeps(b, r, false, t);
  }

  lemma {:induction false} RunKeepsInv(b: Board, labels: seq<Label>)
    requires Inv(b)
    ensures Run(b, labels).Some? ==> Inv(Run(b, labels).value)
  {
    if labels != [] && Run(b, labels).Some? {
      var init := labels[..|labels| - 1];
      RunKeepsInv(b, init);
      StepKeepsInv(Run(b, init).value, labels[|labels| - 1], Run(b, labels).value);
    }
  }

  // ----- theorems over every run of a connection -----

  ghost predicate Reachable(b: Board) { exists labels :: Run(EMPTY, labels) == Some(b) }

  lemma ReachableInv(b: Board)
    requires Reachable(b)
    ensures Inv(b)
  {
    var labels :| Run(EMPTY, labels) == Some(b);
    RunKeepsInv(EMPTY, labels);
  }

  /** No request is completed twice, and the map only ever holds requests that nobody has completed
      or begun to complete. */
  lemma CompletedAtMostOnce(b: Board)
    requires Reachable(b)
    ensures !b.panicked
    ensures forall key :: key in b.pending ==>
      b.pending[key] < |b.reqs| && !b.reqs[b.pending[key]].done && Unclaimed(b, b.pending[key])
  {
    ReachableInv(b);
    forall key | key in b.pending
      ensures b.pending[key] < |b.reqs| && !b.reqs[b.pending[key]].done && Unclaimed(b, b.pending[key])
    {
      assert PendingOk(b, key);
    }
  }

  /** Claim `c` is the only one on request `r`; it was made for its key, for a reason that explains its
      error, and before the key was registered again. */
  ghost predicate SoleAnswer(b: Board, r: nat, c: nat)
    requires r < |b.reqs| && c < |b.claims|
  {
    var k := b.claims[c];
    && k.req == r && (forall d :: 0 <= d < |b.claims| && b.claims[d].req == r ==> d == c)
    && Newest(b.reqs, r, k.asOf) && Justified(k.cause, b.reqs[r].key, k.error)
  }

  /** A woken caller got the error of the one resolution of its own request. */
  lemma WokenByItsAnswer(b: Board, r: nat) returns (c: nat)
    requires Reachable(b) && r < |b.reqs| && b.reqs[r].caller.Woken?
    ensures c < |b.claims| && SoleAnswer(b, r, c) && b.reqs[r].caller.error == b.claims[c].error
  {
    ReachableInv(b);
    assert RequestOk(b, r);
    c :| 0 <= c < |b.claims| && b.claims[c].req == r;
    assert ClaimOk(b, c);
  }

  /** What no step undoes: keys stay, completion and its error stay, and a returned caller's result stays. */
  ghost predicate Later(b: Board, t: Board) {
    && |b.reqs| <= |t.reqs|
    && forall r :: 0 <= r < |b.reqs| ==>
      && t.reqs[r].key == b.reqs[r].key
      && (b.reqs[r].done ==> t.reqs[r].done && t.reqs[r].error == b.reqs[r].error)
      && (b.reqs[r].caller != Waiting ==> t.reqs[r].caller == b.reqs[r].caller)
  }

  /** Registered again under its key before anybody resolved it. */
  ghost predicate Displaced(b: Board, r: nat) {
    && r < |b.reqs| && !b.reqs[r].done && !b.reqs[r].caller.Woken? && Unclaimed(b, r)
    && exists q :: r < q < |b.reqs| && b.reqs[q].key == b.reqs[r].key
  }

  lemma StepIsLater(b: Board, l: Label, t: Board)
    requires Inv(b) && Step(b, l) == Some(t)
    ensures Later(b, t)
    ensures forall r: nat :: Displaced(b, r) ==> Displaced(t, r)
  {
    if l.Write? { assert ClaimOk(b, l.claim); }
    forall r: nat | Displaced(b, r) ensures Displaced(t, r) {
      var q :| r < q < |b.reqs| && b.reqs[q].key == b.reqs[r].key;
      assert t.reqs[q].key == b.reqs[q].key;
      if l.Resolve? && l.key in b.pending { assert PendingOk(b, l.key); }
    }
  }

  lemma {:induction false} RunIsLater(b: Board, labels: seq<Label>, t: Board)
    requires Inv(b) && Run(b, labels) == Some(t)
    ensures Later(b, t)
    ensures forall r: nat :: Displaced(b, r) ==> Displaced(t, r)
  {
    if labels != [] {
      var init := labels[..|labels| - 1];
      var m := Run(b, init).value;
      RunKeepsInv(b, init);
      RunIsLater(b, init, m);
      StepIsLater(m, labels[|labels| - 1], t);
    }
  }

  /** The caller of a displaced request can never be woken: all it can get is a timeout. */
  lemma DisplacedNeverWakes(b: Board, r: nat, labels: seq<Label>, t: Board)
    requires Reachable(b) && Displaced(b, r) && Run(b, labels) == Some(t)
    ensures r < |t.reqs| && !t.reqs[r].done && !t.reqs[r].caller.Woken?
  {
    ReachableInv(b);
    RunIsLater(b, labels, t);
    assert Displaced(t, r);
  }

  // ----- what an answer means -----

  lemma KeysDiffer(a: string, b: string)
    ensures JoinKey(a) != NamesKey(b) && JoinKey(a) != DmKey(b) && JoinKey(a) != REGISTER_KEY
    ensures NamesKey(a) != DmKey(b) && DmKey(a) != REGISTER_KEY
    ensures JoinKey(a) == JoinKey(b) ==> a == b
    ensures DmKey(a) == DmKey(b) ==> a == b
  {
    assert JoinKey(a)[0] == 'j' && NamesKey(b)[0] == NamesKey(a)[0] == 'n' && DmKey(b)[0] == DmKey(a)[0] == 'p';
    assert JoinKey(a)[5..] == a && JoinKey(b)[5..] == b && DmKey(a)[8..] == a && DmKey(b)[8..] == b;
  }

  /** A join succeeds on the end of the channel's member list and on nothing else; whether the client
      was made a member is not asked. It is refused on a 403, 473, 474 or 475 for that channel. */
  lemma JoinAnswer(channel: string, cause: Cause, error: Option<Code>)
    requires Justified(cause, JoinKey(channel), error)
    ensures error == None <==> cause.Reply? && cause.command == "366"
    ensures error == Some(JoinFailed) <==> cause.Reply? && cause.command in {"403", "473", "474", "475"}
    ensures cause.Reply? ==> |cause.params| >= 2 && cause.params[1] == channel
  {
    if cause.Reply? {
      JoinVerdict(channel, cause.command, cause.params, Verdict(JoinKey(channel), error));
    } else if cause.DmExpired? {
      KeysDiffer(channel, cause.target);
    }
  }

  lemma JoinVerdict(channel: string, command: string, params: seq<string>, v: Verdict)
    requires v in Verdicts(command, params) && v.key == JoinKey(channel)
    ensures |params| >= 2 && params[1] == channel
    ensures (command == "366" && v.error == None)
         || (command in {"403", "473", "474", "475"} && v.error == Some(JoinFailed))
  {
    var p := if |params| > 1 then params[1] else "";
    KeysDiffer(channel, p);
  }

  /** A direct message is refused exactly when the server says its own target does not exist. */
  lemma DmAnswer(target: string, cause: Cause, error: Option<Code>)
    requires Justified(cause, DmKey(target), error)
    ensures error == Some(NoSuchNick) <==>
      cause.Reply? && cause.command == "401" && (if |cause.params| > 1 then cause.params[1] else "") == target
    ensures error == None <==> cause == DmExpired(target)
  {
    if cause.Reply? {
      DmVerdict(target, cause.command, cause.params, Verdict(DmKey(target), error));
    } else if cause.DmExpired? {
      KeysDiffer(target, cause.target);
    }
  }

  lemma DmVerdict(target: string, command: string, params: seq<string>, v: Verdict)
    requires v in Verdicts(command, params) && v.key == DmKey(target)
    ensures command == "401" && v.error == Some(NoSuchNick) && (if |params| > 1 then params[1] else "") == target
  {
    var p := if |params| > 1 then params[1] else "";
    KeysDiffer(p, target);
    KeysDiffer(target, p);
  }

  /** And each of these answers is given by a reply that calls for it. */
  lemma RepliesResolve(command: string, params: seq<string>)
    ensures command == "001" ==> Justified(Reply(command, params), REGISTER_KEY, None)
    ensures command == "433" ==> Justified(Reply(command, params), REGISTER_KEY, Some(NickInUse))
    ensures command == "432" ==> Justified(Reply(command, params), REGISTER_KEY, Some(NickInvalid))
    ensures command == "366" && |params| >= 2 ==>
      Justified(Reply(command, params), JoinKey(params[1]), None)
      && Justified(Reply(command, params), NamesKey(params[1]), None)
    ensures command in {"403", "473", "474", "475"} && |params| >= 2 ==>
      Justified(Reply(command, params), JoinKey(params[1]), Some(JoinFailed))
    ensures command == "401" && |params| >= 2 ==>
      Justified(Reply(command, params), DmKey(params[1]), Some(NoSuchNick))
  {
    if command == "366" && |params| >= 2 { assert Verdicts(command, params)[1] == Verdict(JoinKey(params[1]), None); }
  }

  /** Registration succeeds on a 001 and on nothing else; a 433 says the nick is in use and a 432 that it
      cannot be used. */
  lemma RegisterAnswer(cause: Cause, error: Option<Code>)
    requires Justified(cause, REGISTER_KEY, error)
    ensures error == None <==> cause.Reply? && cause.command == "001"
    ensures error == Some(NickInUse) <==> cause.Reply? && cause.command == "433"
    ensures error == Some(NickInvalid) <==> cause.Reply? && cause.command == "432"
  {
    if cause.Reply? {
      var p := if |cause.params| > 1 then cause.params[1] else "";
      KeysDiffer(p, p);
      NamesIsNotRegister(p);
    } else if cause.DmExpired? {
      KeysDiffer(cause.target, cause.target);
    }
  }

  lemma NamesIsNotRegister(channel: string)
    ensures NamesKey(channel) != REGISTER_KEY
  {
    assert NamesKey(channel)[0] == 'n' && REGISTER_KEY[0] == '_';
  }

  /** Listing a channel succeeds on the end of its member list and on nothing else. */
  lemma NamesAnswer(channel: string, cause: Cause, error: Option<Code>)
    requires Justified(cause, NamesKey(channel), error)
    ensures error == None <==> cause.Reply?
    ensures cause.Reply? ==> cause.command == "366" && |cause.params| >= 2 && cause.params[1] == channel
  {
    if cause.Reply? {
      NamesVerdict(channel, cause.command, cause.params, Verdict(NamesKey(channel), error));
    } else if cause.DmExpired? {
      KeysDiffer(channel, cause.target);
    }
  }

  lemma NamesVerdict(channel: string, command: string, params: seq<string>, v: Verdict)
    requires v in Verdicts(command, params) && v.key == NamesKey(channel)
    ensures command == "366" && v.error == None && |params| >= 2 && params[1] == channel
  {
    var p := if |params| > 1 then params[1] else "";
    KeysDiffer(p, channel);
    KeysDiffer(channel, p);
    assert NamesKey(channel)[0] == 'n' && REGISTER_KEY[0] == '_';
    assert NamesKey(channel)[6..] == channel && NamesKey(p)[6..] == p;
  }

  /** What the labels have collected for request `r`, in order. */
  function WordsFor(labels: seq<Label>, r: nat): seq<string> {
    if labels == [] then [] else
    var before, last := WordsFor(labels[..|labels| - 1], r), labels[|labels| - 1];
    if last.Collect? && last.req == r then before + last.words else before
  }

  /** A request holds exactly what was collected for it, in order, and nothing from another request,
      not even of the same key. */
  lemma {:induction false} NamesAreCollected(labels: seq<Label>, b: Board, r: nat)
    requires Run(EMPTY, labels) == Some(b)
    ensures NamesOf(b, r) == WordsFor(labels, r)
  {
    if labels != [] {
      var init := labels[..|labels| - 1];
      var m := Run(EMPTY, init).value;
      NamesAreCollected(init, m, r);
      NamesStep(m, labels[|labels| - 1], b, r);
    }
  }

  function NamesOf(b: Board, r: nat): seq<string> { if r < |b.reqs| then b.reqs[r].names else [] }

  lemma NamesStep(b: Board, l: Label, t: Board, r: nat)
    requires Step(b, l) == Some(t)
    ensures NamesOf(t, r) == if l.Collect? && l.req == r then NamesOf(b, r) + l.words else NamesOf(b, r)
    ensures l.Collect? ==> l.req < |b.reqs|
  {
  }

  /** So a join that returned success saw the end of its channel's member list, handled after it asked
      and before anybody asked again. */
  lemma JoinedMeansListed(b: Board, r: nat, channel: string) returns (c: nat)
    requires Reachable(b) && r < |b.reqs| && b.reqs[r].key == JoinKey(channel) && b.reqs[r].caller == Woken(None)
    ensures c < |b.claims| && SoleAnswer(b, r, c) && b.claims[c].cause.Reply? && b.claims[c].cause.command == "366"
    ensures |b.claims[c].cause.params| >= 2 && b.claims[c].cause.params[1] == channel
  {
    c := WokenByItsAnswer(b, r);
    JoinAnswer(channel, b.claims[c].cause, b.claims[c].error);
  }
}
