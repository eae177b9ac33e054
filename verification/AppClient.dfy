/** The app-server client: one delivery attempt is a short conversation with a thread that may
    be idle, active, unloaded or lost, over a connection whose frames the server chooses. */
module AppClient {
  import opened Prelude
  import Text

  const IDLE_RACE_CODE := -32600
  const IDLE_RACE_TEXT := "no active turn to steer"

  datatype Method = Initialize | ThreadRead | TurnsList | TurnStart | TurnSteer

  /** Why a delivery attempt produced no acknowledgement. */
  datatype Failure =
    | Unavailable(kind: string)
    | RpcFailed(call: Method, code: int, message: string)
    | HeldBack
    | BindingChanged
    | Broken

  predicate IsIdleSteerRace(code: int, message: string) {
    code == IDLE_RACE_CODE && Text.Map(Text.AsciiLower, Text.TrimSpace(message)) == IDLE_RACE_TEXT
  }

  /** The message of the race, up to case and surrounding white space. */
  ghost predicate SpellsRace(message: string, x: string, m: string, y: string) {
    && message == x + m + y && Text.AllCut(x, Text.IsSpace) && Text.AllCut(y, Text.IsSpace)
    && Lowered(m, "no active turn to steer")
  }

  /** The race is one code with one message, in any case and with any white space around it. */
  lemma RaceIs(code: int, message: string)
    ensures IsIdleSteerRace(code, message) <==> code == -32600 && exists x, m, y :: SpellsRace(message, x, m, y)
  {
    var text := "no active turn to steer";
    if IsIdleSteerRace(code, message) {
      var x, y := Text.TrimSplits(message, Text.IsSpace);
      var m := Text.TrimSpace(message);
      assert forall i :: 0 <= i < |m| ==> Text.AsciiLower(m[i]) == Text.Map(Text.AsciiLower, m)[i];
      assert SpellsRace(message, x, m, y);
    }
    if x, m, y :| SpellsRace(message, x, m, y) {
      assert Text.AsciiLower(m[0]) == text[0] && Text.AsciiLower(m[|m| - 1]) == text[|m| - 1];
      Text.TrimStrips(x, m, y, Text.IsSpace);
    }
  }

  /** A turn/steer error that is not the recognised race: nobody knows whether the text arrived. */
  predicate IsUnclassifiedSteer(f: Failure) {
    f.RpcFailed? && f.call == TurnSteer && !IsIdleSteerRace(f.code, f.message)
  }

  function FailureState(f: Failure): string {
    match f
    case Unavailable(kind) => if kind != "" then kind else "unavailable"
    case RpcFailed(TurnSteer, _, _) => "steer_error_blocked"
    case RpcFailed(_, _, message) =>
      var m := Text.Map(Text.AsciiLower, message);
      if Text.Contains(m, "not loaded") then "not_loaded"
      else if Text.Contains(m, "closed") then "closed"
      else "rpc_error"
    case HeldBack => "steer_error_blocked"
    case _ => "unavailable"
  }

  /** A failed steer, and a start that is held back because of one, are told by one name; the status of
      a thread that is not available by that status. */
  lemma FailureStates(f: Failure)
    ensures SteerFailed(f) || f.HeldBack? ==> FailureState(f) == "steer_error_blocked"
    ensures f.Unavailable? && f.kind != "" ==> FailureState(f) == f.kind
    ensures f.Broken? || f.BindingChanged? || f == Unavailable("") ==> FailureState(f) == "unavailable"
    ensures f.RpcFailed? && !SteerFailed(f) ==> FailureState(f) in {"not_loaded", "closed", "rpc_error"}
  {
  }

  /** An error that says the thread is not loaded, in any case, is told so; and failing that, one that
      says something is closed. */
  lemma ErrorStates(call: Method, code: int, message: string, x: string, m: string, y: string)
    requires call != TurnSteer && message == x + m + y
    ensures Lowered(m, "not loaded") ==> FailureState(RpcFailed(call, code, message)) == "not_loaded"
    ensures Lowered(m, "closed") ==> FailureState(RpcFailed(call, code, message)) in {"not_loaded", "closed"}
  {
    var all := Text.Map(Text.AsciiLower, message);
    assert forall i :: 0 <= i < |m| ==> message[|x| + i] == m[i];
    forall t: string | Lowered(m, t) ensures t <= all[|x|..] {
      assert forall i :: 0 <= i < |t| ==> all[|x|..][i] == t[i];
    }
  }

  ghost predicate Lowered(m: string, t: string) {
    |m| == |t| && forall i :: 0 <= i < |m| ==> Text.AsciiLower(m[i]) == t[i]
  }

  datatype Turn = Turn(id: string, inProgress: bool)

  /** What thread/read followed by thread/turns/list told the client. */
  datatype Inspection =
    | InspectFailed(failure: Failure)
    | WrongThread
    | Thread(kind: string, turns: seq<Turn>)

  /** Inspection never dispatches, so its errors never name a dispatching call. */
  predicate Honest(i: Inspection) {
    i.InspectFailed? ==>
      i.failure.Broken? || (i.failure.RpcFailed? && i.failure.call !in {TurnStart, TurnSteer})
  }

  /** Three ways text can be sent to the thread. */
  datatype Dispatch = StartIdle | Steer(turn: string) | StartStale

  function MethodOf(d: Dispatch): Method { if d.Steer? then TurnSteer else TurnStart }

  /** The server's answer to a dispatch. `Ack("")` is a result without a turn id. */
  datatype Reply = Lost | Refused(code: int, message: string) | Ack(turn: string)

  datatype Decision = Send(dispatch: Dispatch) | GiveUp(failure: Failure)
  datatype Verdict = Delivered(turn: string) | Recheck | Undelivered(failure: Failure)

  function ActiveTurn(turns: seq<Turn>): string {
    if turns == [] then "" else if turns[0].inProgress then turns[0].id else ActiveTurn(turns[1..])
  }

  /** The branch taken on the first look at the thread. */
  function Decide(noStart: bool, i: Inspection): Decision {
    match i
    case InspectFailed(f) => GiveUp(f)
    case WrongThread => GiveUp(Broken)
    case Thread(kind, turns) =>
      if kind == "idle" then
        if noStart then GiveUp(HeldBack) else Send(StartIdle)
      else if kind != "active" then GiveUp(Unavailable(kind))
      else if ActiveTurn(turns) == "" then GiveUp(Broken)
      else Send(Steer(ActiveTurn(turns)))
  }

  /** The branch taken on the second look, after a steer met the end of its turn. */
  function Redecide(i: Inspection): Decision {
    match i
    case InspectFailed(f) => GiveUp(f)
    case WrongThread => GiveUp(Broken)
    case Thread(kind, _) => if kind == "idle" then Send(StartStale) else GiveUp(Unavailable(kind))
  }

  function Judge(d: Dispatch, r: Reply): Verdict {
    match r
    case Lost => Undelivered(Broken)
    case Refused(code, message) =>
      if d.Steer? && IsIdleSteerRace(code, message) then Recheck
      else Undelivered(RpcFailed(MethodOf(d), code, message))
    case Ack(turn) => if turn == "" then Undelivered(Broken) else Delivered(turn)
  }

  predicate SteerFailed(f: Failure) { f.RpcFailed? && f.call == TurnSteer }

  /** Only a steer is rechecked or fails as a steer, and a delivery needs an acknowledged turn. */
  lemma JudgeIs(d: Dispatch, r: Reply)
    ensures Judge(d, r).Recheck? ==> d.Steer? && r.Refused?
    ensures Judge(d, r).Undelivered? && SteerFailed(Judge(d, r).failure) ==> d.Steer?
    ensures Judge(d, r).Delivered? <==> r.Ack? && r.turn != ""
  {
  }
}
