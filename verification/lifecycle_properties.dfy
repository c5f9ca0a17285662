/** Properties of sequences of `EnsureInitialized` calls, for every choice
    of what the backend's `init()` does on each call. */
module LifecycleProperties {
  import opened PluginLifecycle

  /** Once initialized, every further call is a no-op: `init()` is not run,
      nothing happens, every call returns normally and the state stays. */
  lemma {:induction false} InitializedCallsAreNoOps(p: Plugin, outcomes: seq<InitOutcome>)
    requires IsInitialized(p)
    ensures Run(p, outcomes).final == p
    ensures Run(p, outcomes).events == []
    ensures forall i :: 0 <= i < |outcomes| ==>
              !Run(p, outcomes).attempted[i] && Run(p, outcomes).results[i] == Returned
    decreases |outcomes|
  {
    if |outcomes| > 0 {
      InitializedCallsAreNoOps(p, outcomes[1..]);
    }
  }

  /** From an uninitialized plugin, call `i` runs `init()` exactly when every
      earlier call's `init()` failed: failures are retried, and after the
      first success `init()` is never run again. */
  lemma {:induction false} AttemptsUntilFirstSuccess(p: Plugin, outcomes: seq<InitOutcome>)
    requires !IsInitialized(p)
    ensures forall i :: 0 <= i < |outcomes| ==>
              (Run(p, outcomes).attempted[i] <==> FailsBefore(outcomes, i))
    decreases |outcomes|
  {
    if |outcomes| > 0 {
      var t := Run(p, outcomes);
      var s := EnsureInitialized(p, outcomes[0]);
      assert t.attempted[0];
      if outcomes[0].InitSucceeded? {
        InitializedCallsAreNoOps(s.plugin, outcomes[1..]);
        forall i | 1 <= i < |outcomes|
          ensures !t.attempted[i] && !FailsBefore(outcomes, i)
        {
          assert t.attempted[i] == Run(s.plugin, outcomes[1..]).attempted[i - 1];
        }
      } else {
        AttemptsUntilFirstSuccess(s.plugin, outcomes[1..]);
        forall i | 1 <= i < |outcomes|
          ensures t.attempted[i] <==> FailsBefore(outcomes, i)
        {
          assert t.attempted[i] == Run(s.plugin, outcomes[1..]).attempted[i - 1];
          assert FailsBefore(outcomes, i) <==> FailsBefore(outcomes[1..], i - 1) by {
            forall j | 1 <= j < i ensures outcomes[j] == outcomes[1..][j - 1] { }
          }
        }
      }
    }
  }

  /** The plugin ends initialized exactly when it started so or some call's
      `init()` succeeded. */
  lemma {:induction false} InitializedIffSomeSuccess(p: Plugin, outcomes: seq<InitOutcome>)
    ensures IsInitialized(Run(p, outcomes).final) <==> IsInitialized(p) || SomeSucceeds(outcomes)
    decreases |outcomes|
  {
    if |outcomes| > 0 {
      var s := EnsureInitialized(p, outcomes[0]);
      InitializedIffSomeSuccess(s.plugin, outcomes[1..]);
      if SomeSucceeds(outcomes[1..]) {
        var k :| 0 <= k < |outcomes[1..]| && outcomes[1..][k].InitSucceeded?;
        assert outcomes[k + 1].InitSucceeded?;
      }
      if SomeSucceeds(outcomes) && !outcomes[0].InitSucceeded? {
        var k :| 0 <= k < |outcomes| && outcomes[k].InitSucceeded?;
        assert outcomes[1..][k - 1].InitSucceeded?;
      }
    }
  }

  /** Every `FlagSet` in a trace comes right after an `InitReturned`: the flag
      is set only once `init()` has returned, never before or without it. */
  lemma {:induction false} FlagSetOnlyAfterInitReturned(p: Plugin, outcomes: seq<InitOutcome>)
    ensures forall k :: 0 <= k < |Run(p, outcomes).events| && Run(p, outcomes).events[k] == FlagSet ==>
              k >= 1 && Run(p, outcomes).events[k - 1] == InitReturned
    decreases |outcomes|
  {
    if |outcomes| > 0 {
      var s := EnsureInitialized(p, outcomes[0]);
      var rest := Run(s.plugin, outcomes[1..]);
      FlagSetOnlyAfterInitReturned(s.plugin, outcomes[1..]);
      var events := Run(p, outcomes).events;
      assert events == s.events + rest.events;
      forall k | 0 <= k < |events| && events[k] == FlagSet
        ensures k >= 1 && events[k - 1] == InitReturned
      {
        if k >= |s.events| {
          assert rest.events[k - |s.events|] == FlagSet;
          var k' := k - |s.events|;
          assert events[k - 1] == rest.events[k' - 1];
        } else {
          assert FlagSet in s.events;
        }
      }
    }
  }

  /** The flag is set at most once over any number of calls, and never when
      the plugin was already initialized. */
  lemma {:induction false} FlagSetAtMostOnce(p: Plugin, outcomes: seq<InitOutcome>)
    ensures IsInitialized(p) ==> FlagSet !in Run(p, outcomes).events
    ensures forall i, j ::
              0 <= i < |Run(p, outcomes).events| && 0 <= j < |Run(p, outcomes).events| &&
              Run(p, outcomes).events[i] == FlagSet && Run(p, outcomes).events[j] == FlagSet ==>
              i == j
    decreases |outcomes|
  {
    if IsInitialized(p) {
      InitializedCallsAreNoOps(p, outcomes);
    } else if |outcomes| > 0 {
      var s := EnsureInitialized(p, outcomes[0]);
      var rest := Run(s.plugin, outcomes[1..]);
      FlagSetAtMostOnce(s.plugin, outcomes[1..]);
      var events := Run(p, outcomes).events;
      assert events == s.events + rest.events;
      if FlagSet in s.events {
        assert FlagSet !in rest.events;
        forall i | |s.events| <= i < |events| ensures events[i] != FlagSet {
          assert events[i] == rest.events[i - |s.events|];
        }
      } else {
        forall i | 0 <= i < |s.events| ensures events[i] != FlagSet {
          assert events[i] == s.events[i];
        }
        forall i, j | |s.events| <= i < |events| && |s.events| <= j < |events| &&
                      events[i] == FlagSet && events[j] == FlagSet
          ensures i == j
        {
          assert events[i] == rest.events[i - |s.events|];
          assert events[j] == rest.events[j - |s.events|];
        }
      }
    }
  }

  /** A call raises exactly when it ran `init()` and `init()` failed, and it
      raises that same error. */
  lemma {:induction false} FailuresPropagate(p: Plugin, outcomes: seq<InitOutcome>)
    ensures forall i :: 0 <= i < |outcomes| ==>
              (Run(p, outcomes).results[i].Raised? <==>
                 Run(p, outcomes).attempted[i] && outcomes[i].InitFailed?)
    ensures forall i :: 0 <= i < |outcomes| && Run(p, outcomes).results[i].Raised? ==>
              Run(p, outcomes).results[i].error == outcomes[i].error
    decreases |outcomes|
  {
    if |outcomes| > 0 {
      var s := EnsureInitialized(p, outcomes[0]);
      var rest := Run(s.plugin, outcomes[1..]);
      FailuresPropagate(s.plugin, outcomes[1..]);
      var t := Run(p, outcomes);
      forall i | 1 <= i < |outcomes|
        ensures t.results[i] == rest.results[i - 1] && t.attempted[i] == rest.attempted[i - 1]
        ensures outcomes[i] == outcomes[1..][i - 1]
      {
      }
    }
  }

  /** After a failed first attempt the plugin is still uninitialized and the
      next call runs `init()` again. */
  lemma RetryAfterFailure(error: string, next: InitOutcome)
    ensures var first := EnsureInitialized(New(), InitFailed(error));
            && first.result == Raised(error)
            && !IsInitialized(first.plugin)
            && InitStarted in EnsureInitialized(first.plugin, next).events
  {
  }
}
