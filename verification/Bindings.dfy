/** The persisted binding and what each operation does to it. `None` is an absent binding file. */
module Bindings {
  import opened Prelude
  import opened AppClient

  datatype Route = Route(session: string, endpoint: string, thread: string, mention: bool, channels: seq<string>)

  datatype Binding = Binding(
    id: string, route: Route, enabled: bool, offset: nat, replay: bool,
    blocked: bool, state: string, failure: Option<Failure>, noStart: bool)

  predicate Valid(b: Binding) {
    b.id != "" && b.route.session != "" && b.route.endpoint != "" && b.route.thread != ""
  }

  /** Same generation, same destination. */
  predicate Matches(current: Binding, expected: Binding) {
    && current.id == expected.id && current.route.session == expected.route.session
    && current.route.endpoint == expected.route.endpoint && current.route.thread == expected.route.thread
  }

  /** May a worker holding `expected` still write to the stored binding? */
  predicate MayUpdate(stored: Option<Binding>, expected: Binding) {
    stored.Some? && Matches(stored.value, expected) && stored.value.enabled
  }

  /** May a worker holding `expected` still dispatch on behalf of `session`? */
  predicate MayDispatch(stored: Option<Binding>, expected: Binding, session: string) {
    MayUpdate(stored, expected) && stored.value.route.session == session
  }

  function WithProgress(b: Binding, offset: nat, acknowledged: bool): Binding {
    if acknowledged
    then b.(offset := offset, blocked := false, state := "accepted", failure := None, noStart := false)
    else b.(offset := offset)
  }

  function WithFailure(b: Binding, f: Failure): Binding {
    b.(blocked := true, state := FailureState(f), failure := Some(f), noStart := b.noStart || IsUnclassifiedSteer(f))
  }

  function NewBinding(id: string, route: Route, start: nat, replay: bool, probe: Option<Failure>): Binding {
    match probe
    case None => Binding(id, route, true, start, replay, false, "ready", None, false)
    case Some(f) => Binding(id, route, true, start, replay, true, FailureState(f), Some(f), false)
  }
}
