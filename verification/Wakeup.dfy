/** Waking the worker: a message is appended, then a token goes into a channel that holds one. */
module Wakeup {

  datatype Worker = Waiting | Roused | Passing

  /** `size` counts appended messages, `signalling` the appenders that have yet to offer their token,
      and `covered` what had been appended when the latest pass began. */
  datatype State = State(size: nat, signalling: nat, token: bool, worker: Worker, covered: nat)

  datatype Label = Append | Signal | Take | Tick | Begin | End

  const BIRTH := State(0, 0, false, Waiting, 0)

  /** A step that is not enabled changes nothing. */
  function Step(s: State, l: Label): State {
    match l
    case Append => s.(size := s.size + 1, signalling := s.signalling + 1)
    case Signal => if s.signalling > 0 then s.(signalling := s.signalling - 1, token := true) else s
    case Take => if s.worker.Waiting? && s.token then s.(token := false, worker := Roused) else s
    case Tick => if s.worker.Waiting? then s.(worker := Roused) else s
    case Begin => if s.worker.Roused? then s.(worker := Passing, covered := s.size) else s
    case End => if s.worker.Passing? then s.(worker := Waiting) else s
  }

  function Run(labels: seq<Label>): State {
    if labels == [] then BIRTH else Step(Run(labels[..|labels| - 1]), labels[|labels| - 1])
  }

  /** A message no pass covers yet is on its way to the worker. */
  ghost predicate Announced(s: State) {
    s.covered <= s.size && (s.covered < s.size ==> s.signalling > 0 || s.token || s.worker.Roused?)
  }

  /** No wake-up is lost: whatever the interleaving, a worker that waits with no token to take and no
      appender about to offer one has begun a pass since the last message was appended. */
  lemma {:induction false} NoLostWakeup(labels: seq<Label>)
    ensures Announced(Run(labels))
    ensures var s := Run(labels); s.worker.Waiting? && !s.token && s.signalling == 0 ==> s.covered == s.size
  {
    if labels != [] { NoLostWakeup(labels[..|labels| - 1]); }
  }
}
