/**
 * ASan activation and deactivation.
 *
 * Deactivation stashes the live runtime configuration (allocator options,
 * malloc context size, heap poisoning, coverage) in a single process-wide
 * record and switches the runtime to a fixed, cheap "disabled" configuration.
 * Activation overlays the overrides found in ASAN_ACTIVATION_OPTIONS on that
 * record, writes the result back into it, and pushes it into the live
 * subsystems again.
 *
 * The pure functions below give the meaning of one transition on a
 * `RuntimeState` value; the class `ActivationController` performs the same
 * transitions step by step on its fields and is proved against them.
 */
module AsanActivation {
  import opened CTypes
  import opened AsanStack

  /** The smallest redzone the allocator accepts, used for both bounds while deactivated. */
  const DISABLED_REDZONE: int := 16

  /**
   * The allocator's options. The five fields the activation code edits are
   * explicit; the remaining options are carried as an opaque remainder that
   * this code only ever copies.
   */
  datatype AllocatorOptions = AllocatorOptions(
    quarantineSizeMb: int,
    minRedzone: int,
    maxRedzone: int,
    allocDeallocMismatch: bool,
    mayReturnNull: bool,
    other: seq<int>)

  /** The record `asan_deactivated_flags`: the configuration saved by deactivation. */
  datatype DeactivatedFlags = DeactivatedFlags(
    allocatorOptions: AllocatorOptions,
    mallocContextSize: Int32,
    poisonHeap: bool,
    coverage: bool,
    coverageDir: Option<string>)

  /**
   * The already-parsed contents of ASAN_ACTIVATION_OPTIONS: one optional
   * value per recognised key; `None` means the key was not given.
   * Unrecognised keys do not appear here, so they cannot stop the
   * recognised ones from taking effect.
   */
  datatype ActivationOverrides = ActivationOverrides(
    quarantineSizeMb: Option<int>,
    minRedzone: Option<int>,
    maxRedzone: Option<int>,
    allocDeallocMismatch: Option<bool>,
    mayReturnNull: Option<bool>,
    mallocContextSize: Option<Int32>,
    poisonHeap: Option<bool>,
    coverage: Option<bool>,
    coverageDir: Option<string>,
    help: Option<bool>)

  /** The parse of a variable that is set but holds no recognised key. */
  const NO_OVERRIDES: ActivationOverrides :=
    ActivationOverrides(None, None, None, None, None, None, None, None, None, None)

  /**
   * What the activation code can observe of the live subsystems: the
   * allocator's current options, the malloc-context-size register, the
   * can-poison-memory switch and the coverage service's state.
   */
  datatype LiveConfig = LiveConfig(
    allocator: AllocatorOptions,
    mallocContextSize: U32,
    canPoison: bool,
    coverage: bool,
    coverageDir: Option<string>)

  /** The process's common coverage flags, which deactivation reads and this code never writes. */
  datatype CoverageFlags = CoverageFlags(coverage: bool, coverageDir: Option<string>)

  /** Everything one activation or deactivation reads or writes. */
  datatype RuntimeState = RuntimeState(
    isDeactivated: bool,
    flags: DeactivatedFlags,
    live: LiveConfig,
    common: CoverageFlags)

  /** The allocator configuration that deactivation installs. */
  predicate IsDisabledAllocator(o: AllocatorOptions) {
    && o.quarantineSizeMb == 0
    && o.minRedzone == DISABLED_REDZONE
    && o.maxRedzone == DISABLED_REDZONE
    && !o.allocDeallocMismatch
    && o.mayReturnNull
  }

  /** The whole live configuration while deactivated, given the saved record. */
  predicate IsDisabledLive(live: LiveConfig, flags: DeactivatedFlags) {
    && IsDisabledAllocator(live.allocator)
    && live.allocator.other == flags.allocatorOptions.other
    && live.mallocContextSize == 1
    && !live.canPoison
    && !live.coverage
    && live.coverageDir == None
  }

  /**
   * The disabled-mode allocator options derived from `o`: the five edited
   * fields take their disabled values and every other option is `o`'s.
   */
  function DisabledOptions(o: AllocatorOptions): (r: AllocatorOptions)
    ensures IsDisabledAllocator(r)
    ensures r.other == o.other
  {
    o.(quarantineSizeMb := 0,
       minRedzone := DISABLED_REDZONE,
       maxRedzone := DISABLED_REDZONE,
       allocDeallocMismatch := false,
       mayReturnNull := true)
  }

  /** Whether the variable asked for the activation-specific help text. */
  predicate HelpRequested(env: Option<ActivationOverrides>) {
    env.Some? && env.value.help == Some(true)
  }

  /**
   * The saved record after applying the overrides in `env` (`None` when the
   * variable is not set). A field changes only if its key is present, and
   * then takes exactly the given value.
   */
  function Overlay(flags: DeactivatedFlags, env: Option<ActivationOverrides>): (r: DeactivatedFlags)
    ensures env.None? ==> r == flags
    ensures r.allocatorOptions.other == flags.allocatorOptions.other
    ensures env.Some? ==>
      var e := env.value;
      && (if e.quarantineSizeMb.Some? then r.allocatorOptions.quarantineSizeMb == e.quarantineSizeMb.value
          else r.allocatorOptions.quarantineSizeMb == flags.allocatorOptions.quarantineSizeMb)
      && (if e.minRedzone.Some? then r.allocatorOptions.minRedzone == e.minRedzone.value
          else r.allocatorOptions.minRedzone == flags.allocatorOptions.minRedzone)
      && (if e.maxRedzone.Some? then r.allocatorOptions.maxRedzone == e.maxRedzone.value
          else r.allocatorOptions.maxRedzone == flags.allocatorOptions.maxRedzone)
      && (if e.allocDeallocMismatch.Some? then r.allocatorOptions.allocDeallocMismatch == e.allocDeallocMismatch.value
          else r.allocatorOptions.allocDeallocMismatch == flags.allocatorOptions.allocDeallocMismatch)
      && (if e.mayReturnNull.Some? then r.allocatorOptions.mayReturnNull == e.mayReturnNull.value
          else r.allocatorOptions.mayReturnNull == flags.allocatorOptions.mayReturnNull)
      && (if e.mallocContextSize.Some? then r.mallocContextSize == e.mallocContextSize.value
          else r.mallocContextSize == flags.mallocContextSize)
      && (if e.poisonHeap.Some? then r.poisonHeap == e.poisonHeap.value else r.poisonHeap == flags.poisonHeap)
      && (if e.coverage.Some? then r.coverage == e.coverage.value else r.coverage == flags.coverage)
      && (if e.coverageDir.Some? then r.coverageDir == e.coverageDir else r.coverageDir == flags.coverageDir)
  {
    match env
    case None => flags
    case Some(e) =>
      var o := flags.allocatorOptions;
      DeactivatedFlags(
        AllocatorOptions(
          e.quarantineSizeMb.GetOr(o.quarantineSizeMb),
          e.minRedzone.GetOr(o.minRedzone),
          e.maxRedzone.GetOr(o.maxRedzone),
          e.allocDeallocMismatch.GetOr(o.allocDeallocMismatch),
          e.mayReturnNull.GetOr(o.mayReturnNull),
          o.other),
        e.mallocContextSize.GetOr(flags.mallocContextSize),
        e.poisonHeap.GetOr(flags.poisonHeap),
        e.coverage.GetOr(flags.coverage),
        if e.coverageDir.Some? then e.coverageDir else flags.coverageDir)
  }

  /** The live configuration that activation pushes from the saved record. */
  function RestoredLive(f: DeactivatedFlags): (r: LiveConfig)
    ensures r.allocator == f.allocatorOptions
    ensures U32ToInt32(r.mallocContextSize) == f.mallocContextSize
    ensures r.canPoison == f.poisonHeap
    ensures r.coverage == f.coverage && r.coverageDir == f.coverageDir
  {
    Int32RoundTrip(f.mallocContextSize);
    LiveConfig(f.allocatorOptions, Int32ToU32(f.mallocContextSize), f.poisonHeap, f.coverage, f.coverageDir)
  }

  /**
   * One deactivation of an active runtime: the saved record holds the
   * pre-deactivation configuration, the live subsystems hold the disabled
   * one, and the runtime is marked deactivated.
   */
  function Deactivated(s: RuntimeState): (r: RuntimeState)
    requires !s.isDeactivated
    ensures r.isDeactivated && r.common == s.common
    ensures r.flags.allocatorOptions == s.live.allocator
    ensures Int32ToU32(r.flags.mallocContextSize) == s.live.mallocContextSize
    ensures r.flags.poisonHeap == s.live.canPoison
    ensures r.flags.coverage == s.common.coverage && r.flags.coverageDir == s.common.coverageDir
    ensures IsDisabledLive(r.live, r.flags)
    ensures r.live.allocator == DisabledOptions(s.live.allocator)
  {
    U32RoundTrip(s.live.mallocContextSize);
    var saved := DeactivatedFlags(
      s.live.allocator,
      U32ToInt32(s.live.mallocContextSize),
      s.live.canPoison,
      s.common.coverage,
      s.common.coverageDir);
    var off := LiveConfig(DisabledOptions(saved.allocatorOptions), 1, false, false, None);
    RuntimeState(true, saved, off, s.common)
  }

  /**
   * One activation: nothing happens to an active runtime; a deactivated one
   * gets the overlaid record, both saved and pushed to the live subsystems,
   * and is marked active.
   */
  function Activated(s: RuntimeState, env: Option<ActivationOverrides>): (r: RuntimeState)
    ensures !r.isDeactivated && r.common == s.common
    ensures !s.isDeactivated ==> r == s
    ensures s.isDeactivated ==> r.flags == Overlay(s.flags, env) && r.live == RestoredLive(r.flags)
  {
    if !s.isDeactivated then s
    else
      var f := Overlay(s.flags, env);
      RuntimeState(false, f, RestoredLive(f), s.common)
  }

  /**
   * The activation controller: the globals `asan_deactivated_flags` and
   * `asan_is_deactivated`, together with the live subsystems it reconfigures.
   */
  class ActivationController {
    var isDeactivated: bool
    var deactivatedFlags: DeactivatedFlags

    /** The allocator's options, as read by GetAllocatorOptions and set by ReInitializeAllocator. */
    var allocatorOptions: AllocatorOptions
    /** The can-poison-memory switch (CanPoisonMemory / SetCanPoisonMemory). */
    var canPoisonMemory: bool
    /** The coverage service's state, as set by ReInitializeCoverage. */
    var coverageEnabled: bool
    var coverageDir: Option<string>
    /** The common coverage flags, read at deactivation. */
    const coverageFlag: bool
    const coverageDirFlag: Option<string>
    /** The process-wide malloc-context-size register. */
    const register: MallocContextRegister

    function State(): (s: RuntimeState)
      reads this, register
      ensures s.isDeactivated == isDeactivated && s.flags == deactivatedFlags
    {
      RuntimeState(
        isDeactivated,
        deactivatedFlags,
        LiveConfig(allocatorOptions, register.size, canPoisonMemory, coverageEnabled, coverageDir),
        CoverageFlags(coverageFlag, coverageDirFlag))
    }

    /**
     * The controller at process start: active, with the saved record still
     * zero-initialised, and the coverage service following the common flags.
     */
    constructor (register: MallocContextRegister, allocator: AllocatorOptions, canPoison: bool,
                 coverage: bool, coverageDir: Option<string>)
      ensures this.register == register
      ensures !isDeactivated
      ensures deactivatedFlags == DeactivatedFlags(AllocatorOptions(0, 0, 0, false, false, []), 0, false, false, None)
      ensures allocatorOptions == allocator && canPoisonMemory == canPoison
      ensures coverageEnabled == coverageFlag == coverage
      ensures this.coverageDir == coverageDirFlag == coverageDir
    {
      this.register := register;
      isDeactivated := false;
      deactivatedFlags := DeactivatedFlags(AllocatorOptions(0, 0, 0, false, false, []), 0, false, false, None);
      allocatorOptions := allocator;
      canPoisonMemory := canPoison;
      coverageEnabled := coverage;
      coverageFlag := coverage;
      this.coverageDir := coverageDir;
      coverageDirFlag := coverageDir;
    }

    /**
     * AsanDeactivate. The CHECK that ASan is active is the precondition:
     * a second deactivation without an activation in between is a fatal error.
     */
    method Deactivate()
      requires !isDeactivated
      modifies this, register
      ensures State() == Deactivated(old(State()))
      ensures isDeactivated && IsDisabledLive(State().live, deactivatedFlags)
      ensures deactivatedFlags.allocatorOptions == old(allocatorOptions)
    {
      // Stash runtime state.
      deactivatedFlags := deactivatedFlags.(allocatorOptions := allocatorOptions);
      var size := register.GetMallocContextSize();
      deactivatedFlags := deactivatedFlags.(mallocContextSize := U32ToInt32(size));
      deactivatedFlags := deactivatedFlags.(poisonHeap := canPoisonMemory);
      deactivatedFlags := deactivatedFlags.(coverage := coverageFlag);
      deactivatedFlags := deactivatedFlags.(coverageDir := coverageDirFlag);

      // Switch the runtime to the disabled configuration.
      canPoisonMemory := false;
      register.SetMallocContextSize(1);
      coverageEnabled, coverageDir := false, None;

      var disabled := deactivatedFlags.allocatorOptions;
      disabled := disabled.(quarantineSizeMb := 0);
      disabled := disabled.(minRedzone := DISABLED_REDZONE);
      disabled := disabled.(maxRedzone := DISABLED_REDZONE);
      disabled := disabled.(allocDeallocMismatch := false);
      disabled := disabled.(mayReturnNull := true);
      allocatorOptions := disabled;

      isDeactivated := true;
    }

    /**
     * AsanDeactivatedFlags::OverrideFromActivationFlags: start every flag
     * from the saved record, let the keys present in the variable replace
     * theirs, and write the result back into the record. `printHelp` says
     * whether the activation-specific help is to be printed; it starts
     * false whatever the process's own help flag is.
     */
    method OverrideFromActivationFlags(env: Option<ActivationOverrides>) returns (printHelp: bool)
      modifies this`deactivatedFlags
      ensures deactivatedFlags == Overlay(old(deactivatedFlags), env)
      ensures printHelp == HelpRequested(env)
    {
      // Copy the current activation flags.
      var options := deactivatedFlags.allocatorOptions;
      var mallocContextSize := deactivatedFlags.mallocContextSize;
      var poisonHeap := deactivatedFlags.poisonHeap;
      var coverage := deactivatedFlags.coverage;
      var dir := deactivatedFlags.coverageDir;
      var help := false;

      if env.Some? {
        var e := env.value;
        // Each key present replaces its flag; an absent key keeps the copied value.
        options := options.(quarantineSizeMb := e.quarantineSizeMb.GetOr(options.quarantineSizeMb));
        options := options.(minRedzone := e.minRedzone.GetOr(options.minRedzone));
        options := options.(maxRedzone := e.maxRedzone.GetOr(options.maxRedzone));
        options := options.(allocDeallocMismatch := e.allocDeallocMismatch.GetOr(options.allocDeallocMismatch));
        options := options.(mayReturnNull := e.mayReturnNull.GetOr(options.mayReturnNull));
        mallocContextSize := e.mallocContextSize.GetOr(mallocContextSize);
        poisonHeap := e.poisonHeap.GetOr(poisonHeap);
        coverage := e.coverage.GetOr(coverage);
        if e.coverageDir.Some? { dir := e.coverageDir; }
        help := e.help.GetOr(help);
      }
      printHelp := help;

      deactivatedFlags := DeactivatedFlags(options, mallocContextSize, poisonHeap, coverage, dir);
    }

    /** AsanActivate: a no-op when active; otherwise restores the (overridden) saved configuration. */
    method Activate(env: Option<ActivationOverrides>) returns (printHelp: bool)
      modifies this, register
      ensures State() == Activated(old(State()), env)
      ensures !isDeactivated
      ensures printHelp == (old(isDeactivated) && HelpRequested(env))
    {
      if !isDeactivated {
        return false;
      }
      printHelp := OverrideFromActivationFlags(env);

      canPoisonMemory := deactivatedFlags.poisonHeap;
      register.SetMallocContextSize(Int32ToU32(deactivatedFlags.mallocContextSize));
      coverageEnabled, coverageDir := deactivatedFlags.coverage, deactivatedFlags.coverageDir;
      allocatorOptions := deactivatedFlags.allocatorOptions;

      isDeactivated := false;
    }
  }
}
