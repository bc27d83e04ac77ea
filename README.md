# Uranium launcher: requirement checks, invoke bridge and status store

A Dafny model of the small amount of real logic in the Uranium desktop launcher:

- **Backend requirement checks** (`Backend`, from `src-tauri/src/lib.rs`). Three
  checks decide whether the launcher can run: the operating system, the CPU
  architecture and a Steam installation. Each check yields `Met` or
  `NotMet(message)`. `Requirements::new` sets the overall flag to the
  conjunction of the three. `get_app_path` looks up the launcher paths of six
  games through the Steam installation. The facts the backend reads from the
  host are inputs: the `os_info` report, the build target chosen by
  `#[cfg(target_os)]` and the result of locating Steam.
- **Invoke bridge** (`Tauri`, from `src/lib/utils/tauri.ts`). It builds the
  display record for one requirement (`getRequirementData`). It declares the
  closed registry of three commands (`InvokeMap`). It has two ways of calling a
  command: `safeInvoke` returns the reply or propagates the failure, and
  `effectfulInvoke` wraps a failure in an `InvokeError` that names the command.
- **Status store** (`SystemStore`, from `src/lib/stores/System.svelte.ts`). The
  class `System` has four fields and derived views of them. Its `refresh` makes
  three calls in order. It overwrites one field per successful call and stops at
  the first failure.
- **String helper** (`Functions`, from `src/lib/utils/functions.ts`).
  `capitalised` upper-cases the first character.

The host's `invoke` is modelled by the class `Tauri.Transport`. Its reply to the
n-th call is `respond(n, request)`, an arbitrary function supplied when the
transport is built. The transport also keeps the list of requests it received.
So any sequence of backend successes and failures can be expressed, and the
contracts can say exactly which requests a call sends. The frontend casts every
reply to the declared return type (`as R`) without checking it. The model states
this trust as `Transport.Trusted()`: every successful reply has the declared
shape of its command. `Tauri.HostBackendTrusted` proves that a transport
whose successful replies are the Rust handlers' answers meets it, whatever
calls it rejects.

Three facts about the code shape the model:

- `refresh` issues its three calls one after another and stops at the first
  failure; later calls are not issued.
- `gamepads` starts as an empty list.
- A reply is cast to the declared return type and never validated at run time.

The operating-system check compares the `os_info` type with its generic `Linux`
variant, but its message names the build target. On a Linux build where
`os_info` reports any other variant, the check fails with a message saying that
"Linux" is not supported. `Backend.LinuxBuildWithOtherOsInfoType` states this.
(`os_info` is not part of this model, so the model does not claim which hosts
report which variant.)

## Model

| member | source | states |
|---|---|---|
| `Functions.ToUpper` | src/lib/utils/functions.ts:10 | ASCII `toUpperCase` of one character: a lower-case letter becomes its upper-case letter, anything else is unchanged; the result is never lower case |
| `Functions.Capitalised` | src/lib/utils/functions.ts:7-11 | same length as the input (so `""` gives `""`); the first character upper-cased; every character from index 1 unchanged |
| `Functions.CapitalisedIdempotent` | src/lib/utils/functions.ts:1-11 | capitalising twice equals capitalising once, with no "already capitalised" check |
| `Functions.ToUpperIdempotent` | src/lib/utils/functions.ts:10 | upper-casing a character twice equals upper-casing it once |
| `Backend.AllMet` | src-tauri/src/lib.rs:47-49 | `iter().all(x == Met)` is true iff every state in the list is `Met` |
| `Backend.NewRequirements` | src-tauri/src/lib.rs:36-63 | `all_met` iff the operating-system, architecture and Steam states are all `Met`; every argument is stored unchanged, `steam_installed` in `steam` |
| `Backend.PathsDoNotAffectAllMet` | src-tauri/src/lib.rs:47-49 | the six game paths have no influence on `all_met` |
| `Backend.GetOperatingSystemType` | src-tauri/src/lib.rs:66-80 | the result is one of `"Linux"`, `"MacOS"`, `"Windows"`, and is `"Linux"` iff the build target is Linux |
| `Backend.OperatingSystemTypeInjective` | src-tauri/src/lib.rs:66-80 | different build targets give different names |
| `Backend.Formatted` | src-tauri/src/lib.rs:98-104 | the one-placeholder `format!`: the result has the combined length and is the prefix, then the name, then the suffix |
| `Backend.NameIn` | src-tauri/src/lib.rs:98 | extracting a name from a message: when it succeeds, formatting the name back gives the message |
| `Backend.NameInFormatted` | src-tauri/src/lib.rs:98-104 | the value put into a `format!` placeholder is read back exactly from the message |
| `Backend.OperatingSystemRequirement` | src-tauri/src/lib.rs:95-99 | `Met` iff the `os_info` type is Linux; otherwise `NotMet` whose message names the given operating-system name |
| `Backend.ArchitectureRequirement` | src-tauri/src/lib.rs:100-105 | `Met` iff the architecture is exactly `Some("x86_64")`; otherwise `NotMet` whose message names the architecture, or `"unknown"` when absent |
| `Backend.SteamRequirement` | src-tauri/src/lib.rs:106-112 | `Met` iff a Steam directory was located; otherwise `NotMet` with the fixed Steam message |
| `Backend.GetAppPath` | src-tauri/src/lib.rs:82-86 | `None` without a Steam directory, when the lookup fails, or when it finds nothing; otherwise the found app's launcher path |
| `Backend.GetRequirements` | src-tauri/src/lib.rs:88-120 | `all_met` iff the type is Linux, the architecture is `x86_64` and Steam was located; each field is its decision (the OS message names the build target); each path is its app id's lookup; without Steam every path is `None` and `all_met` is false |
| `Backend.LinuxBuildWithOtherOsInfoType` | src-tauri/src/lib.rs:91-99 | on a Linux build whose `os_info` type is not the generic Linux one, the check is `NotMet` with a message naming "Linux", and `all_met` is false |
| `Backend.IsSetup` | src-tauri/src/lib.rs:122-126 | always false |
| `Tauri.ReplaceAll` | src/lib/utils/tauri.ts:21 | same length; each occurrence of one character is replaced by another and every other character is kept |
| `Tauri.GetRequirementData` | src/lib/utils/tauri.ts:10-24 | `ok` iff the state is `Met`; `message` is absent for `Met` and is the `NotMet` message otherwise; the key has the same length, no underscores, `_` shown as a space and the first character upper-cased |
| `Tauri.RequirementDataUnmetExample` | src/lib/utils/tauri.ts:10-24 | `("mw3_path", NotMet("X"))` gives `{ok: false, key: "Mw3 path", message: "X"}` |
| `Tauri.RequirementDataMetExample` | src/lib/utils/tauri.ts:10-24 | `("steam", Met)` gives `{ok: true, key: "Steam", message: null}` |
| `Tauri.Command.Name` | src/lib/utils/tauri.ts:26-46 | the name sent for a command is one of the registry's three keys, `get_operating_system_type`, `get_requirements` or `is_setup` (also the names the backend's handler table dispatches on) |
| `Tauri.Command.Returns` | src/lib/utils/tauri.ts:26-46 | the declared `returns` schema: no command returns `Void`, and only `is_setup` returns a boolean (the OS command returns the three-literal schema, `get_requirements` the requirements struct) |
| `Tauri.Conforms` | src/lib/utils/tauri.ts:26-46 | what a value of each schema's `Type` is: nothing is of `Void`, the OS literal schema admits exactly OS values and the boolean schema exactly booleans; `RequirementsStruct` conformance checks only the constructor, which suffices because a `RequirementsValue` carries a full requirements record by construction |
| `Tauri.Command.Args` | src/lib/utils/tauri.ts:26-47 | every registered command takes `Void` arguments |
| `Tauri.CommandNamed` | src/lib/utils/tauri.ts:26-50 | a name found in the registry belongs to the command returned; a name not found belongs to no command (the registry is closed) |
| `Tauri.CommandNamedRoundTrip` | src/lib/utils/tauri.ts:26-50 | every command is found under its own name |
| `Tauri.OsTypeLiteralValues` | src/lib/utils/tauri.ts:27-30 | a value of the operating-system command's schema is `"Linux"`, `"MacOS"` or `"Windows"` |
| `Tauri.Handle` | src-tauri/src/lib.rs:133-137 | the backend's answer to each registered command has that command's declared return schema |
| `Tauri.HostBackendTrusted` | src/lib/utils/tauri.ts:83-93 | a transport whose successful replies are the backend handlers' answers, and which may reject any call, satisfies the trust the `as R` cast places in it |
| `Tauri.RequestFor` | src/lib/utils/tauri.ts:88-92 | the argument object is sent iff one is supplied, unchanged; the command is the one invoked |
| `Tauri.Transport.Invoke` | src/lib/utils/tauri.ts:89-91 | one call: the request is appended to those sent and the reply is the transport's answer to it |
| `Tauri.TryPromise` | src/lib/utils/tauri.ts:117-121 | a value passes unchanged; a rejection becomes an `UnknownException` around the rejection reason |
| `Tauri.MapError` | src/lib/utils/tauri.ts:123-126 | a value passes unchanged; a failure becomes an `InvokeError` whose command is the one invoked and whose error is the effect's failure (the `UnknownException`) |
| `Tauri.MapErrorRoundTrip` | src/lib/utils/tauri.ts:95-126 | the transport's original outcome is recovered from the structured variant's result, so the two layers of wrapping lose nothing |
| `Tauri.SafeInvoke` | src/lib/utils/tauri.ts:83-93 | exactly one request is sent; the reply is returned unchanged, a failure with its own cause; under the trust assumption a value has the declared shape |
| `Tauri.EffectfulInvoke` | src/lib/utils/tauri.ts:111-128 | exactly one request is sent; a value is returned unchanged and a rejection as an `InvokeError` for the invoked command holding an `UnknownException` around the rejection reason |
| `SystemStore.StepsSendNoArgs` | src/lib/stores/System.svelte.ts:25-27 | the three requests of a refresh name the OS, requirements and setup commands in that order, each sent name-only without arguments, and no command is asked twice |
| `SystemStore.Refreshed` | src/lib/stores/System.svelte.ts:24-28 | `gamepads` is never changed; the requests sent are a prefix of the three steps in order; a failure at a step sends no later request, keeps earlier assignments, leaves its own and later fields as they were, and propagates its cause |
| `SystemStore.RefreshIdempotent` | src/lib/stores/System.svelte.ts:24-28 | refreshing again with the same replies changes nothing further: there is no rollback and no accumulation |
| `SystemStore.CompletedRefreshForgetsHistory` | src/lib/stores/System.svelte.ts:24-28 | after a refresh that completes, every field but `gamepads` depends only on the replies |
| `SystemStore.System.constructor` | src/lib/stores/System.svelte.ts:5-16 | the initial state: type `Unknown`, no requirements, no setup flag, no gamepads; not supported and no gamepad connected |
| `SystemStore.System.Type` | src/lib/stores/System.svelte.ts:5-7 | `type` always equals the private `_type` |
| `SystemStore.System.GamepadConnected` | src/lib/stores/System.svelte.ts:12-13 | true iff the gamepad list is non-empty |
| `SystemStore.System.IsSetup` | src/lib/stores/System.svelte.ts:15-16 | `isSetup` always equals the private `_isSetup` |
| `SystemStore.System.Supported` | src/lib/stores/System.svelte.ts:18 | true iff the type is Linux, so false while it is unknown |
| `SystemStore.System.Refresh` | src/lib/stores/System.svelte.ts:24-28 | the new fields, the requests sent and the outcome are those of `Refreshed` for the transport's replies; `gamepads` is unchanged; after a completed refresh the store is supported iff the backend reported Linux |

## Left out

- The Tauri runtime, `run()`, plugin registration and the command macros are framework plumbing. Only the command table they build appears, as `Tauri.Handle`.
- `os_info::get()`, `SteamDir::locate()` and `find_app` are foreign calls. Their results are inputs: `OsInfo`, `Option<SteamDir>`, and the lookup function inside `SteamDir`. The `Library` that `find_app` returns beside the app is not modelled, because the code never uses it.
- `get_operating_system_type`'s `#[cfg(target_os)]` choice is made at build time. It is an input drawn from the three targets.
- The `@tauri-apps/api` `invoke` and the Effect library are foreign. `invoke` is the `Transport` class. `effectfulInvoke` is modelled as the effect being run: an unrun effect sends nothing, and that laziness is not modelled.
- A backend call that never answers is not modelled. Every call gets a reply or a failure.
- The TypeScript type-level helpers and overloads (`InvokeArgs`, `AllWithNoArgs`, `AllWithArgs`, `InvokeReturnType`) have no run-time behaviour. They are not modelled, and neither is the compile-time rule that a `Void` command is called without arguments: the model accepts an argument object for any command, as the implementation signature does.
- Argument values are modelled as strings keyed by property name. Only whether an argument object is forwarded matters.
- The `Schema` run-time decoding is not modelled: the code never decodes replies, and the `as R` cast is the assumption `Transport.Trusted()`.
- Svelte reactivity (`$state`, `$derived`), `createContext` and `initialiseSystemContext` are framework features. Derived values are functions of the fields.
- SystemStore.System.constructor: the constructor starts a `refresh` without awaiting it. In the model the constructor only sets the initial state, and that refresh is a separate `Refresh` call. Overlapping, unawaited refreshes and the last-write-wins race between them are concurrency and are not modelled.
- Who updates `gamepads` is outside the store (the gamepad event plumbing). The model only shows that `refresh` never changes it.
- `wait` / `setTimeout` is a timer and is left out.
- Functions.ToUpper: upper-casing is the ASCII mapping. A full Unicode `toUpperCase` (which can change the length, as with "ß") and UTF-16 `charAt` are not modelled.
- The exact HTML text of the `NotMet` messages is kept only as constants. Contracts speak of where the operating-system or architecture name is inserted.
