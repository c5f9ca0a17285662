/** The storage plugin's one-time initialization guard.

    A plugin starts uninitialized. `EnsureInitialized` runs the backend's
    `init()` routine only while the plugin is uninitialized; it sets the
    flag only after `init()` has returned, and when `init()` raises it leaves
    the flag unset and re-raises the same error, so a later call tries again.

    `init()` belongs to the backend and is not visible here: its outcome on a
    call is a parameter, chosen freely, which makes the model hold for every
    backend. The calls are sequential. */
module PluginLifecycle {

  /** What the backend's `init()` does when it is run. */
  datatype InitOutcome = InitSucceeded | InitFailed(error: string)

  /** What a call to `EnsureInitialized` does for its caller. */
  datatype CallResult = Returned | Raised(error: string)

  /** The observable actions of a call, in the order they happen. */
  datatype Event = InitStarted | InitReturned | InitRaised(error: string) | FlagSet

  /** The guard's state: the `initialized` flag. */
  datatype Plugin = Plugin(initialized: bool)

  /** A freshly constructed plugin. */
  function New(): (p: Plugin)
    ensures !IsInitialized(p)
  {
    Plugin(false)
  }

  /** The read-only `is_initialized` property: a function of the state, so
      reading it cannot change it. It is false exactly in the state a fresh
      plugin starts in. */
  function IsInitialized(p: Plugin): (b: bool)
    ensures b <==> p != Plugin(false)
  {
    p.initialized
  }

  /** The effect of one call: the state after it, what it did, what the caller sees. */
  datatype Step = Step(plugin: Plugin, events: seq<Event>, result: CallResult)

  /** One call of `ensure_initialized`, with `outcome` being what `init()`
      would do if this call runs it. */
  function EnsureInitialized(p: Plugin, outcome: InitOutcome): (s: Step)
    // `init()` is attempted exactly when the plugin is not yet initialized
    ensures InitStarted in s.events <==> !IsInitialized(p)
    // once initialized, a call is a no-op
    ensures IsInitialized(p) ==> s.plugin == p && s.events == [] && s.result == Returned
    // the plugin is initialized afterwards exactly when it was, or `init()` succeeded now
    ensures IsInitialized(s.plugin) <==> IsInitialized(p) || outcome.InitSucceeded?
    // the flag is set only right after `init()` returned, and only that way
    ensures FlagSet in s.events <==> !IsInitialized(p) && outcome.InitSucceeded?
    ensures FlagSet in s.events ==> s.events == [InitStarted, InitReturned, FlagSet]
    // a failing `init()` leaves the flag unset and its error reaches the caller
    ensures s.result.Raised? <==> !IsInitialized(p) && outcome.InitFailed?
    ensures s.result.Raised? ==>
              && s.result.error == outcome.error
              && !IsInitialized(s.plugin)
              && s.events == [InitStarted, InitRaised(outcome.error)]
  {
    if p.initialized then Step(p, [], Returned)
    else
      match outcome
      case InitSucceeded => Step(Plugin(true), [InitStarted, InitReturned, FlagSet], Returned)
      case InitFailed(e) => Step(p, [InitStarted, InitRaised(e)], Raised(e))
  }

  /** The record of a sequence of calls: final state, every event in order,
      what each call returned and whether it ran `init()`. */
  datatype Trace = Trace(final: Plugin, events: seq<Event>, results: seq<CallResult>,
                         attempted: seq<bool>)

  /** Sequential calls of `EnsureInitialized`; `outcomes[i]` is what `init()`
      would do if call `i` runs it. */
  function Run(p: Plugin, outcomes: seq<InitOutcome>): (t: Trace)
    ensures |t.results| == |outcomes| && |t.attempted| == |outcomes|
    // the flag never goes back to false
    ensures IsInitialized(p) ==> IsInitialized(t.final)
    decreases |outcomes|
  {
    if |outcomes| == 0 then Trace(p, [], [], [])
    else
      var s := EnsureInitialized(p, outcomes[0]);
      var rest := Run(s.plugin, outcomes[1..]);
      Trace(rest.final, s.events + rest.events, [s.result] + rest.results,
            [InitStarted in s.events] + rest.attempted)
  }

  /** `init()` would fail on each of the first `n` calls. */
  predicate FailsBefore(outcomes: seq<InitOutcome>, n: nat)
    requires n <= |outcomes|
  {
    forall j :: 0 <= j < n ==> outcomes[j].InitFailed?
  }

  /** Some call's `init()` would succeed. */
  predicate SomeSucceeds(outcomes: seq<InitOutcome>) {
    exists i :: 0 <= i < |outcomes| && outcomes[i].InitSucceeded?
  }

  /** A caller invoking `EnsureInitialized` once per outcome on a fresh
      plugin: returns the final state and how many times `init()` ran. */
  method CallRepeatedly(outcomes: seq<InitOutcome>) returns (p: Plugin, initRuns: nat)
    ensures IsInitialized(p) <==> SomeSucceeds(outcomes)
    // initialized: `init()` ran up to and including its first success, then never again
    ensures IsInitialized(p) ==>
              && 1 <= initRuns <= |outcomes|
              && outcomes[initRuns - 1].InitSucceeded?
              && FailsBefore(outcomes, initRuns - 1)
    // never initialized: every call retried `init()`
    ensures !IsInitialized(p) ==> initRuns == |outcomes|
  {
    p := New();
    initRuns := 0;
    var i := 0;
    while i < |outcomes|
      invariant 0 <= i <= |outcomes|
      invariant initRuns <= i
      invariant IsInitialized(p) <==> SomeSucceeds(outcomes[..i])
      invariant IsInitialized(p) ==>
                  && 1 <= initRuns
                  && outcomes[initRuns - 1].InitSucceeded?
                  && FailsBefore(outcomes, initRuns - 1)
      invariant !IsInitialized(p) ==> initRuns == i && FailsBefore(outcomes, i)
    {
      var s := EnsureInitialized(p, outcomes[i]);
      if InitStarted in s.events {
        initRuns := initRuns + 1;
      }
      p := s.plugin;
      assert outcomes[..i + 1] == outcomes[..i] + [outcomes[i]];
      i := i + 1;
    }
    assert outcomes[..i] == outcomes;
  }
}
