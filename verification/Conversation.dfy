/** One delivery attempt over the wire: numbered requests, frames in whatever order the server
    likes, and the decision tree of Deliver on top. */
module Conversation {
  import opened Prelude
  import opened AppClient

  /** The fields the client looks at in a result; absent ones are empty. */
  datatype Payload = Payload(thread: string, status: string, turns: seq<Turn>, started: string, steered: string)

  datatype Body = Result(payload: Payload) | Error(code: int, message: string) | Malformed

  /** A notification has no id. */
  datatype Frame = Frame(id: Option<nat>, body: Body) | Unreadable

  datatype Sending = Sending(id: nat, call: Method, turn: string)

  /** Connection state: the request counter, the frames still to come, and what was written. */
  datatype Conn = Conn(next: nat, inbox: seq<Frame>, sent: seq<Sending>)

  /** What the authorization callback does: let the write through, see it fail, or refuse to send. */
  datatype Gate = Open | WriteFails | Closed(failure: Failure)

  /** How the world treats one send: can the binding be loaded to authorize it, does the write succeed,
      and does the thread take the text (of which the client may hear nothing). */
  datatype SendFate = SendFate(loaded: bool, written: bool, taken: bool)

  /** Authorization: the send happens only if the binding loads and still permits it. */
  function GateOf(permitted: bool, f: SendFate): Gate {
    if !f.loaded then Closed(Broken)
    else if !permitted then Closed(BindingChanged)
    else if f.written then Open
    else WriteFails
  }

  datatype Called = Got(payload: Payload) | Failed(failure: Failure)

  /** The first frame carrying `id` answers; frames for other ids and notifications are passed over. */
  function Await(inbox: seq<Frame>, id: nat): seq<Frame> {
    if inbox == [] || inbox[0].Unreadable? || inbox[0].id == Some(id) then inbox else Await(inbox[1..], id)
  }

  function Rest(inbox: seq<Frame>): seq<Frame> { if inbox == [] then [] else inbox[1..] }

  function Meaning(inbox: seq<Frame>, call: Method): Called {
    if inbox == [] || inbox[0].Unreadable? then Failed(Broken)
    else match inbox[0].body
      case Result(payload) => Got(payload)
      case Error(code, message) => Failed(RpcFailed(call, code, message))
      case Malformed => Failed(Broken)
  }

  function Call(c: Conn, call: Method, turn: string, gate: Gate): (Conn, Called) {
    var id := c.next + 1;
    var written := Conn(id, c.inbox, c.sent + [Sending(id, call, turn)]);
    match gate
    case Closed(failure) => (c.(next := id), Failed(failure))
    case WriteFails => (written, Failed(Broken))
    case Open => var frames := Await(c.inbox, id); (written.(inbox := Rest(frames)), Meaning(frames, call))
  }

  function Look(c: Conn, thread: string): (Conn, Inspection) {
    var (c1, read) := Call(c, ThreadRead, "", Open);
    if read.Failed? then (c1, InspectFailed(read.failure)) else
    var (c2, list) := Call(c1, TurnsList, "", Open);
    if list.Failed? then (c2, InspectFailed(list.failure))
    else if read.payload.thread != thread then (c2, WrongThread)
    else (c2, Thread(read.payload.status, list.payload.turns))
  }

  /** The reply to a dispatch, as the delivery model sees it. */
  function ReplyOf(d: Dispatch, r: Called): Reply {
    match r
    case Got(p) => Ack(if d.Steer? then p.steered else p.started)
    case Failed(RpcFailed(_, code, message)) => Refused(code, message)
    case Failed(_) => Lost
  }

  datatype Outcome = Acknowledged(call: Method, turn: string) | Retained(failure: Failure)

  function TurnOf(d: Dispatch): string { if d.Steer? then d.turn else "" }

  /** A dispatch and what it came to. Only a steer can come back for a second look. */
  function Try(c: Conn, d: Dispatch, gate: Gate): (Conn, Verdict) {
    var (c1, r) := Call(c, MethodOf(d), TurnOf(d), gate);
    if gate.Closed? then (c1, Undelivered(gate.failure)) else (c1, Judge(d, ReplyOf(d, r)))
  }

  function Conclusion(d: Dispatch, v: Verdict): Outcome {
    match v
    case Delivered(turn) => Acknowledged(MethodOf(d), turn)
    case Recheck => Retained(Broken)
    case Undelivered(f) => Retained(f)
  }

  /** After a steer met the end of its turn: look again, and start if the thread is idle now. */
  function Again(c: Conn, thread: string, gate: Gate): (Conn, Outcome) {
    var (c1, seen) := Look(c, thread);
    match Redecide(seen)
    case GiveUp(f) => (c1, Retained(f))
    case Send(d) => var (c2, v) := Try(c1, d, gate); (c2, Conclusion(d, v))
  }

  function Attempt(c: Conn, thread: string, d: Dispatch, first: Gate, second: Gate): (Conn, Outcome) {
    var (c1, v) := Try(c, d, first);
    if v.Recheck? then Again(c1, thread, second) else (c1, Conclusion(d, v))
  }

  function Deliver(c: Conn, thread: string, noStart: bool, first: Gate, second: Gate): (Conn, Outcome) {
    var (c0, hello) := Call(c, Initialize, "", Open);
    if hello.Failed? then (c0, Retained(hello.failure)) else
    var (c1, seen) := Look(c0, thread);
    match Decide(noStart, seen)
    case GiveUp(f) => (c1, Retained(f))
    case Send(d) => Attempt(c1, thread, d, first, second)
  }

  /** The availability probe made while binding: nothing is sent to the thread. */
  function Probe(c: Conn, thread: string): (Conn, Option<Failure>) {
    var (c0, hello) := Call(c, Initialize, "", Open);
    if hello.Failed? then (c0, Some(hello.failure)) else
    var (c1, seen) := Look(c0, thread);
    (c1, match seen
         case InspectFailed(f) => Some(f)
         case WrongThread => Some(Broken)
         case Thread(kind, _) => if kind == "idle" || kind == "active" then None else Some(Unavailable(kind)))
  }

  /** The client object: its methods move the counter and consume frames. */
  class Rpc {
    var next: nat
    var inbox: seq<Frame>
    var sent: seq<Sending>

    constructor (frames: seq<Frame>)
      ensures State() == Conn(0, frames, [])
    {
      next, inbox, sent := 0, frames, [];
    }

    function State(): Conn
      reads this
    {
      Conn(next, inbox, sent)
    }

    method CallDispatched(call: Method, turn: string, gate: Gate) returns (r: Called)
      modifies this
      ensures (State(), r) == Call(old(State()), call, turn, gate)
    {
      next := next + 1;
      if gate.Closed? { return Failed(gate.failure); }
      sent := sent + [Sending(next, call, turn)];
      if gate.WriteFails? { return Failed(Broken); }
      while inbox != [] && !inbox[0].Unreadable? && inbox[0].id != Some(next)
        invariant next == old(next) + 1 && sent == old(sent) + [Sending(next, call, turn)]
        invariant Await(inbox, next) == Await(old(inbox), next)
        decreases |inbox|
      {
        inbox := inbox[1..];
      }
      r := Meaning(inbox, call);
      inbox := Rest(inbox);
    }

    method Inspect(thread: string) returns (seen: Inspection)
      modifies this
      ensures (State(), seen) == Look(old(State()), thread)
    {
      var read := CallDispatched(ThreadRead, "", Open);
      if read.Failed? { return InspectFailed(read.failure); }
      var list := CallDispatched(TurnsList, "", Open);
      if list.Failed? { return InspectFailed(list.failure); }
      if read.payload.thread != thread { return WrongThread; }
      return Thread(read.payload.status, list.payload.turns);
    }

    method CheckThread(thread: string) returns (failure: Option<Failure>)
      modifies this
      ensures (State(), failure) == Probe(old(State()), thread)
    {
      var hello := CallDispatched(Initialize, "", Open);
      if hello.Failed? { return Some(hello.failure); }
      var seen := Inspect(thread);
      if seen.InspectFailed? { return Some(seen.failure); }
      if seen.WrongThread? { return Some(Broken); }
      if seen.kind != "idle" && seen.kind != "active" { return Some(Unavailable(seen.kind)); }
      return None;
    }

    method DeliverText(thread: string, noStart: bool, first: Gate, second: Gate) returns (out: Outcome)
      modifies this
      ensures (State(), out) == Deliver(old(State()), thread, noStart, first, second)
    {
      var hello := CallDispatched(Initialize, "", Open);
      if hello.Failed? { return Retained(hello.failure); }
      var seen := Inspect(thread);
      if seen.InspectFailed? { return Retained(seen.failure); }
      if seen.WrongThread? { return Retained(Broken); }
      if seen.kind == "idle" {
        if noStart { return Retained(HeldBack); }
        out := Start(StartIdle, first);
        return;
      }
      if seen.kind != "active" { return Retained(Unavailable(seen.kind)); }
      var active := ActiveTurn(seen.turns);
      if active == "" { return Retained(Broken); }
      var r := CallDispatched(TurnSteer, active, first);
      if first.Closed? { return Retained(first.failure); }
      var v := Judge(Steer(active), ReplyOf(Steer(active), r));
      if !v.Recheck? { return Conclusion(Steer(active), v); }
      var again := Inspect(thread);
      if again.InspectFailed? { return Retained(again.failure); }
      if again.WrongThread? { return Retained(Broken); }
      if again.kind != "idle" { return Retained(Unavailable(again.kind)); }
      out := Start(StartStale, second);
    }

    method Start(d: Dispatch, gate: Gate) returns (out: Outcome)
      requires !d.Steer?
      modifies this
      ensures State() == Try(old(State()), d, gate).0 && out == Conclusion(d, Try(old(State()), d, gate).1)
    {
      var r := CallDispatched(TurnStart, "", gate);
      if gate.Closed? { return Retained(gate.failure); }
      return Conclusion(d, Judge(d, ReplyOf(d, r)));
    }
  }
}
