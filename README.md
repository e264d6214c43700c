# ASan activation and deactivation, modelled in Dafny

AddressSanitizer can be switched off and on again at run time. `AsanDeactivate`
saves the live configuration into one process-wide record
(`asan_deactivated_flags`). It then switches the runtime to a cheap, fixed
"disabled" configuration:

- no heap poisoning;
- a malloc context size of 1;
- no coverage;
- no quarantine;
- 16-byte redzones;
- no alloc/dealloc-mismatch checks;
- allocation failure returns null.

`AsanActivate` reads the overrides in `ASAN_ACTIVATION_OPTIONS`, lays them over
the saved record and writes the result back into the record. It then pushes the
record into the live subsystems again. The malloc context size lives in a
separate 32-bit register with a setter and a getter.

Files:

- `ctypes.dfy` (module `CTypes`) holds the `u32` and `int` value types.
  - The saved record keeps the context size in a C `int`, but the register is a `u32`.
  - The implicit conversions between the two are written out, modulo 2^32.
  - Both round trips are proved.
- `asan_stack.dfy` (module `AsanStack`) holds the register as a class with one
  `u32` field, a setter and a getter.
- `asan_activation.dfy` (module `AsanActivation`) has three parts:
  - the allocator options, the saved record and the parsed overrides, as datatypes;
  - the meaning of one deactivation or activation, as pure functions on a `RuntimeState` value;
  - the class `ActivationController`, whose methods make the same changes field by field
    and are proved to match those functions.
- `activation_properties.dfy` (module `ActivationProperties`) runs a sequence of events.
  A failed `CHECK` shows up as an explicit `Aborted` outcome. It proves the laws
  about such sequences: no-op activation, double-deactivation abort, the round trip,
  the selective override and the disabled-configuration invariant.

Deactivation reads the coverage settings from the process's common flags.
It changes coverage only through the coverage service, which is a different place.
The model therefore keeps the two apart:

- the common flags are constant fields of the controller;
- the coverage service's state is a pair of live fields.

So a deactivate/activate round trip sets the coverage service to the common flags.
It gives back the exact prior live configuration when the service agreed with
those flags. That is the state at start-up.

## Model

| member | source | states |
|---|---|---|
| `CTypes.U32ToInt32` | libsanitizer/asan/asan_activation.cc:103 | storing the `u32` context size in the `int` field keeps values up to INT_MAX, wraps larger ones to negatives, and keeps the value modulo 2^32 |
| `CTypes.Int32ToU32` | libsanitizer/asan/asan_activation.cc:134 | passing the `int` field to the `u32` setter keeps non-negative values and maps negatives to the congruent value above INT_MAX |
| `CTypes.U32RoundTrip` | libsanitizer/asan/asan_activation.cc:103 | a `u32` saved in the `int` field and pushed back is the same value |
| `CTypes.Int32RoundTrip` | libsanitizer/asan/asan_activation.cc:134 | an `int` pushed to the register and saved again is the same value |
| `AsanStack.MallocContextRegister.constructor` | libsanitizer/asan/asan_stack.cc:20 | the register starts as a zero-initialised static |
| `AsanStack.MallocContextRegister.SetMallocContextSize` | libsanitizer/asan/asan_stack.cc:22-25 | any `u32` is stored as given, including 0, with no precondition; only the register changes |
| `AsanStack.MallocContextRegister.GetMallocContextSize` | libsanitizer/asan/asan_stack.cc:27-30 | returns the stored value and changes nothing |
| `AsanStack.LastWriteWins` | libsanitizer/asan/asan_stack.cc:22-30 | after two stores a load returns the second value, whatever came before |
| `AsanActivation.DisabledOptions` | libsanitizer/asan/asan_activation.cc:113-118 | the disabled allocator options: quarantine 0, both redzones 16, no mismatch check, may return null, and every other option copied |
| `AsanActivation.Overlay` | libsanitizer/asan/asan_activation.cc:53-78 | every field starts from the saved record; a key that is present sets its field to the given value; an absent key leaves it; an unset variable leaves the whole record |
| `AsanActivation.RestoredLive` | libsanitizer/asan/asan_activation.cc:133-138 | activation pushes the record's poison flag, context size, coverage and allocator options to the live subsystems |
| `AsanActivation.Deactivated` | libsanitizer/asan/asan_activation.cc:96-122 | the record receives the pre-deactivation allocator options, context size, poison flag and common coverage flags; the live state becomes the disabled one built from a copy; the runtime is marked deactivated |
| `AsanActivation.Activated` | libsanitizer/asan/asan_activation.cc:124-146 | no change when already active; otherwise the overlaid record is written back and pushed live, and the runtime is marked active |
| `AsanActivation.ActivationController.constructor` | libsanitizer/asan/asan_activation.cc:92-94 | at start the runtime is active and the saved record is zero-initialised |
| `AsanActivation.ActivationController.Deactivate` | libsanitizer/asan/asan_activation.cc:96-122 | requires the runtime to be active (the CHECK); the new state is `Deactivated` of the old one |
| `AsanActivation.ActivationController.OverrideFromActivationFlags` | libsanitizer/asan/asan_activation.cc:45-79 | the record becomes `Overlay` of itself; help is printed only when the variable sets it, because help starts false |
| `AsanActivation.ActivationController.Activate` | libsanitizer/asan/asan_activation.cc:124-146 | the new state is `Activated` of the old one and the runtime is active afterwards |
| `ActivationProperties.Step` | libsanitizer/asan/asan_activation.cc:98 | a deactivation aborts exactly when the runtime is already deactivated; activation never aborts |
| `ActivationProperties.RunKeepsDisabledWhileDeactivated` | libsanitizer/asan/asan_activation.cc:109-121 | over any sequence of events, a deactivated runtime always has the disabled live configuration, and the common flags never change |
| `ActivationProperties.ActivateWhileActiveIsNoOp` | libsanitizer/asan/asan_activation.cc:126 | any number of activations of an active runtime leave the flag, the record and the live state unchanged |
| `ActivationProperties.DeactivateTwiceAborts` | libsanitizer/asan/asan_activation.cc:98 | two deactivations with no activation in between abort, from any state |
| `ActivationProperties.DeactivateActivateRoundTrip` | libsanitizer/asan/asan_activation.cc:102-138 | deactivate then activate with no variable restores the pre-deactivation allocator options, context size (not the clamped 1) and poison flag; coverage follows the common flags; the whole live state is restored when coverage agreed with them |
| `ActivationProperties.DisabledAllocatorIgnoresPrior` | libsanitizer/asan/asan_activation.cc:113-119 | two prior configurations give the same disabled allocator exactly when their untouched options agree |
| `ActivationProperties.OverlayNeutralAndIdempotent` | libsanitizer/asan/asan_activation.cc:62-66 | an unset variable and one with no recognised key leave the record alone; applying the same overrides twice equals applying them once |
| `ActivationProperties.SelectiveOverride` | libsanitizer/asan/asan_activation.cc:54-78 | with `quarantine_size_mb=64 poison_heap=0`, activation installs a 64 MB quarantine with poisoning off, and every other restored value is the saved one |

## Left out

- Flag parsing is not modelled. This covers `RegisterActivationFlags`, the flag list in `asan_activation_flags.inc`, `GetEnv`, the parser, and `ReportUnrecognizedFlags`. The variable arrives already parsed as `ActivationOverrides`: `None` when unset, one optional value per recognised key.
- The verbosity key is not modelled. Its effect goes through `InitializeCommonFlags` and `Verbosity()`, which are not part of this model, and only diagnostic output depends on it.
- Diagnostics are left out: `VReport`, `Report`, `Print` and `PrintFlagDescriptions`. Help printing is only the `printHelp` result of `OverrideFromActivationFlags` and `Activate`.
- `AllocatorOptions::CopyTo` / `SetFrom` are not part of this model. They are taken as exact copies of every field. The remaining allocator options are an opaque `other` sequence that is only ever copied. The widths of the allocator fields are not modelled.
- External subsystems appear only as writes to live fields. This covers `GetAllocatorOptions`, `ReInitializeAllocator`, `CanPoisonMemory` / `SetCanPoisonMemory` and `ReInitializeCoverage`. Allocator internals are out of scope.
- `UpdateProcessName` is left out. It refreshes reporting caches that nothing here reads.
- The register is modelled sequentially. This leaves out its acquire/release ordering and any interleaving with allocating threads.
- `__sanitizer_print_stack_trace` (libsanitizer/asan/asan_stack.cc:36-43) is left out: stack unwinding and printing.
