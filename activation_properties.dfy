/**
 * Properties of sequences of activations and deactivations.
 *
 * A failed CHECK terminates the process, so a run of events either aborts
 * or ends in a state; `Run` makes the abort explicit where the controller's
 * method states it as a precondition.
 */
module ActivationProperties {
  import opened CTypes
  import opened AsanActivation

  datatype Event = Deactivate | Activate(env: Option<ActivationOverrides>)

  datatype Outcome = Aborted | Running(state: RuntimeState)

  /** One event: deactivating a deactivated runtime fails the CHECK. */
  function Step(s: RuntimeState, e: Event): (r: Outcome)
    ensures r.Aborted? <==> e.Deactivate? && s.isDeactivated
    ensures r.Running? ==> r.state.common == s.common
    ensures r.Running? ==> r.state.isDeactivated == e.Deactivate?
  {
    match e
    case Deactivate => if s.isDeactivated then Aborted else Running(Deactivated(s))
    case Activate(env) => Running(Activated(s, env))
  }

  /** The events in order, stopping at the first failed CHECK. */
  function Run(s: RuntimeState, events: seq<Event>): Outcome
    decreases |events|
  {
    if events == [] then Running(s)
    else
      match Step(s, events[0])
      case Aborted => Aborted
      case Running(t) => Run(t, events[1..])
  }

  /** While deactivated, the live subsystems hold the disabled configuration. */
  predicate DisabledWhileDeactivated(s: RuntimeState) {
    s.isDeactivated ==> IsDisabledLive(s.live, s.flags)
  }

  /** The coverage service agrees with the common coverage flags (as at start-up). */
  predicate CoverageFollowsFlags(s: RuntimeState) {
    s.live.coverage == s.common.coverage && s.live.coverageDir == s.common.coverageDir
  }

  /**
   * Whatever sequence of activations and deactivations runs, the disabled
   * configuration is in force whenever the runtime is deactivated, and the
   * common coverage flags are never changed.
   */
  lemma {:induction false} RunKeepsDisabledWhileDeactivated(s: RuntimeState, events: seq<Event>)
    requires DisabledWhileDeactivated(s)
    ensures Run(s, events).Running? ==> DisabledWhileDeactivated(Run(s, events).state)
    ensures Run(s, events).Running? ==> Run(s, events).state.common == s.common
    decreases |events|
  {
    if events != [] {
      match Step(s, events[0])
      case Aborted =>
      case Running(t) =>
        RunKeepsDisabledWhileDeactivated(t, events[1..]);
    }
  }

  /** Any number of activations of an active runtime change nothing. */
  lemma {:induction false} ActivateWhileActiveIsNoOp(s: RuntimeState, events: seq<Event>)
    requires !s.isDeactivated
    requires forall i :: 0 <= i < |events| ==> events[i].Activate?
    ensures Run(s, events) == Running(s)
    decreases |events|
  {
    if events != [] {
      assert Step(s, events[0]) == Running(s);
      ActivateWhileActiveIsNoOp(s, events[1..]);
    }
  }

  /**
   * Two deactivations with no activation between them abort, whatever the
   * starting state and whatever would have followed.
   */
  lemma DeactivateTwiceAborts(s: RuntimeState, rest: seq<Event>)
    ensures Run(s, [Deactivate, Deactivate] + rest) == Aborted
  {
  }

  /**
   * Deactivate followed by Activate with the variable unset gives back the
   * allocator options, context size and poison switch held before the
   * deactivation (not the clamped ones), and the coverage service gets the
   * common coverage flags that deactivation saved. The allocator options
   * come back unchanged because AllocatorOptions::CopyTo followed by
   * SetFrom is taken to preserve every field (`Overlay` copies them).
   */
  lemma DeactivateActivateRoundTrip(s: RuntimeState)
    requires !s.isDeactivated
    ensures Run(s, [Deactivate, Activate(None)]).Running?
    ensures var t := Run(s, [Deactivate, Activate(None)]).state;
      && !t.isDeactivated
      && t.live.allocator == s.live.allocator
      && t.live.mallocContextSize == s.live.mallocContextSize
      && t.live.canPoison == s.live.canPoison
      && t.live.coverage == s.common.coverage
      && t.live.coverageDir == s.common.coverageDir
      && (CoverageFollowsFlags(s) ==> t.live == s.live)
  {
  }

  /**
   * Deactivation installs the same allocator configuration for any two
   * prior configurations exactly when they share their other options.
   */
  lemma DisabledAllocatorIgnoresPrior(s1: RuntimeState, s2: RuntimeState)
    requires !s1.isDeactivated && !s2.isDeactivated
    ensures Deactivated(s1).live.allocator == Deactivated(s2).live.allocator
        <==> s1.live.allocator.other == s2.live.allocator.other
  {
  }

  /**
   * An unset variable and a variable with no recognised key both leave the
   * saved record as it is, and applying the same overrides twice is the same
   * as applying them once.
   */
  lemma OverlayNeutralAndIdempotent(f: DeactivatedFlags, env: Option<ActivationOverrides>)
    ensures Overlay(f, None) == f
    ensures Overlay(f, Some(NO_OVERRIDES)) == f
    ensures Overlay(Overlay(f, env), env) == Overlay(f, env)
  {
  }

  /**
   * Selective override: with `quarantine_size_mb=64 poison_heap=0` in the
   * variable, activation installs a 64 MB quarantine and turns poisoning
   * off, and every other restored value is the saved one.
   */
  lemma SelectiveOverride(s: RuntimeState)
    requires s.isDeactivated
    ensures var env := Some(NO_OVERRIDES.(quarantineSizeMb := Some(64), poisonHeap := Some(false)));
      var t := Activated(s, env);
      && t.live.allocator == s.flags.allocatorOptions.(quarantineSizeMb := 64)
      && !t.live.canPoison
      && U32ToInt32(t.live.mallocContextSize) == s.flags.mallocContextSize
      && t.live.coverage == s.flags.coverage
      && t.live.coverageDir == s.flags.coverageDir
  {
  }
}
