# useWebContainer: a Dafny model of the sandbox-runtime session

This project models the hook `useWebContainer` of the AI code-editor
playground (`modules/webcontainers/hooks/useWebContainer.ts`). It covers:

- the process-wide WebContainer singleton: `webContainerInstance` and
  `bootPromise`, and `getWebContainerInstance`, which memoizes one boot;
- the per-hook state `instance`, `isLoading`, `error`, `serverUrl` and the
  `mountedRef` guard, filled in by the init effect;
- `writeFileSync`, which creates the parent folder (computed by
  `split("/")`, `slice(0, -1)` and `join("/")`), writes the file and wraps
  any failure with the path;
- `destroy`, which tears the singleton down.

## Structure

- `optional.dfy` (`Optional`): the `Option` datatype, standing for values that may be `null`.
- `paths.dfy` (`Paths`): JavaScript's `split("/")` and `join("/")` as functions, the parent folder,
  a `lastIndexOf("/")` reference definition, and the round-trip lemmas.
- `sandbox.dfy` (`Sandbox`): the `@webcontainer/api` surface the hook uses.
  - A `Container` owns a `FileSystem`: a set of directories plus a map from path to content.
  - The filesystem's `Mkdir` and `WriteFile` take as a parameter what the library would throw, so every call may fail.
  - A ghost log records every call issued.
- `use_web_container.dfy` (`UseWebContainer`):
  - class `Globals`: the two module-level variables, plus the promises `WebContainer.boot()` has returned, indexed by serial number.
  - class `WebContainerHook`: one hook's state.
- `scenarios.dfy` (`Scenarios`): client methods that start from a fresh module and run the steps in a fixed order. They cover concurrent callers, a failed boot, destroy followed by a reboot, the unmount guard and writes.

Asynchrony becomes explicit steps:
- `GetWebContainerInstance` runs a call up to its `await`.
- `BootResolves(c)` and `BootFails(e)` are the library's boot promise settling. The boot's starter caches the instance in the same step, as line 31 does.
- `ResumeInit(k)` is one suspended `initializeWebContainer` continuing after its `await`.
- `Unmount` is the effect's cleanup.

The ghost counter `bootsStarted` counts boots since the last reset. The `Globals.Valid()` invariant keeps it at 0 or 1.

The model follows the code where the design description differs:
- A failed boot is not retriable. `bootPromise` keeps the rejected promise, so every later call receives the same failure. `destroy` acts only when an instance exists, so it cannot clear the failure.
- `serverUrl` is never set to a URL. `WebContainerHook.Valid()` keeps it null.
- Nothing in the hook mounts a file tree. `templateData` is accepted but unused.

## Model

| member | source | states |
|---|---|---|
| Paths.Split | modules/webcontainers/hooks/useWebContainer.ts:82 | `split("/")` yields at least one part and no part contains a separator |
| Paths.Join | modules/webcontainers/hooks/useWebContainer.ts:83 | `join("/")`: its contract is stated by `Paths.JoinSplit` and `Paths.SplitJoin`, the two round trips with `Paths.Split` |
| Paths.ParentFolder | modules/webcontainers/hooks/useWebContainer.ts:82-83 | `folderPath` is the path before its last `/`, or "" when the path holds no `/` |
| Paths.LastSegment | modules/webcontainers/hooks/useWebContainer.ts:82-83 | the segment `slice(0, -1)` drops is the path after its last `/` and holds no `/` |
| Paths.LastSlash | modules/webcontainers/hooks/useWebContainer.ts:82-83 | reference definition of the last separator's index: -1 when absent, else a `/` with no `/` after it |
| Paths.SplitNoSep | modules/webcontainers/hooks/useWebContainer.ts:82 | a string without `/` splits into itself alone |
| Paths.SplitAround | modules/webcontainers/hooks/useWebContainer.ts:82 | splitting `a + "/" + b` is splitting `a` then `b` |
| Paths.JoinSplit | modules/webcontainers/hooks/useWebContainer.ts:82-83 | `join("/")` after `split("/")` returns the original path |
| Paths.SplitJoin | modules/webcontainers/hooks/useWebContainer.ts:82-83 | `split("/")` after `join("/")` returns the parts, when there is at least one part and none holds a `/` |
| Paths.ParentFolderBeforeLastSlash | modules/webcontainers/hooks/useWebContainer.ts:82-85 | the folder is the path before its last `/` ("" without one); the dropped segment is the path after it; the folder is non-empty exactly when the last `/` is not at index 0 |
| Paths.ParentFolderThenLastSegment | modules/webcontainers/hooks/useWebContainer.ts:82-83 | for a path containing `/`, folder + "/" + last segment == path, and the last segment holds no `/` |
| UseWebContainer.WriteOps | modules/webcontainers/hooks/useWebContainer.ts:82-89 | the calls a fault-free write issues: a recursive `mkdir` of the prefix before the last `/` exactly when that `/` is past index 0, then `writeFile` of the full original path |
| UseWebContainer.MessageOf | modules/webcontainers/hooks/useWebContainer.ts:59-61 | `e instanceof Error ? e.message : fallback`: the text is stated through `UseWebContainer.WriteFailureMessageParts` and `UseWebContainer.WebContainerHook.ResumeInit` |
| UseWebContainer.InitFailureMessage | modules/webcontainers/hooks/useWebContainer.ts:58-62 | the text stored in `error` after a failed init: the Error's message, or "Failed to initialize WebContainer"; stated through `UseWebContainer.WebContainerHook.ResumeInit` and `Scenarios.HookSeesBootOnlyWhileMounted` |
| UseWebContainer.WriteFailureMessage | modules/webcontainers/hooks/useWebContainer.ts:91-94 | the rethrown message; its format is stated by `UseWebContainer.WriteFailureMessageParts` |
| UseWebContainer.WriteFailureMessageParts | modules/webcontainers/hooks/useWebContainer.ts:90-94 | the rethrown message is, piece by piece, "Failed to write file at ", the path, ": ", then the cause's message, or "Failed to write file" for a non-Error cause |
| Sandbox.FileSystem.Mkdir | modules/webcontainers/hooks/useWebContainer.ts:86 | the call is logged; on success the folder is added; a failure is returned as thrown and leaves the directories unchanged |
| Sandbox.FileSystem.WriteFile | modules/webcontainers/hooks/useWebContainer.ts:89 | the call is logged; on success the path maps to the content; a failure is returned as thrown and leaves the files unchanged |
| UseWebContainer.Globals.constructor | modules/webcontainers/hooks/useWebContainer.ts:18-19 | at module load, no instance is cached, no boot promise is held and no boot has started |
| UseWebContainer.Globals.GetWebContainerInstance | modules/webcontainers/hooks/useWebContainer.ts:21-30 | a cached instance is returned and nothing changes; otherwise a held promise (pending or rejected) is shared and nothing changes; otherwise exactly one new boot starts and its promise is held |
| UseWebContainer.Globals.BootResolves | modules/webcontainers/hooks/useWebContainer.ts:30-32 | the in-flight boot fulfils with the container, which becomes the cached instance; the held promise stays |
| UseWebContainer.Globals.BootFails | modules/webcontainers/hooks/useWebContainer.ts:30-31 | the in-flight boot rejects; no instance is cached and the rejected promise stays held (sticky) |
| UseWebContainer.Globals.TeardownInstance | modules/webcontainers/hooks/useWebContainer.ts:101-104 | only with a cached instance: `teardown` is called on it once and both module-level fields are cleared; otherwise nothing changes |
| UseWebContainer.WebContainerHook.constructor | modules/webcontainers/hooks/useWebContainer.ts:38-42 | initial hook state: no URL, loading, no error, no instance, mounted |
| UseWebContainer.WebContainerHook.RunInitEffect | modules/webcontainers/hooks/useWebContainer.ts:44-49 | marks the hook mounted and suspends one init call on the reply of `getWebContainerInstance`: the cached instance, or the held promise, starting a boot only when none is held; it never tears anything down |
| UseWebContainer.WebContainerHook.Unmount | modules/webcontainers/hooks/useWebContainer.ts:70-72 | clears the mounted flag and nothing else |
| UseWebContainer.WebContainerHook.ResumeInit | modules/webcontainers/hooks/useWebContainer.ts:49-64 | after unmount the hook's state is unchanged; while mounted, success sets `instance` and clears `isLoading`, and failure sets `error` to the message (or "Failed to initialize WebContainer") and clears `isLoading` |
| UseWebContainer.WebContainerHook.WriteFileSync | modules/webcontainers/hooks/useWebContainer.ts:75-95 | without an instance it throws "WebContainer instance is not available" and may modify no filesystem; otherwise it issues `WriteOps` up to the first failing call, and rethrows that failure wrapped with the path |
| UseWebContainer.WebContainerHook.Destroy | modules/webcontainers/hooks/useWebContainer.ts:100-108 | with a cached instance: one teardown, both globals cleared, hook `instance` and `serverUrl` null; without one (including mid-boot) nothing changes |
| Scenarios.ConcurrentCallsShareOneBoot | modules/webcontainers/hooks/useWebContainer.ts:21-33 | any number of callers before the boot settles share promise 0; at most one boot is started; all receive the same container, and a later caller gets it directly |
| Scenarios.FailedBootIsSticky | modules/webcontainers/hooks/useWebContainer.ts:26-31 | after a failed boot every further caller receives the same rejection, no second boot starts, and destroy does nothing |
| Scenarios.DestroyThenReboot | modules/webcontainers/hooks/useWebContainer.ts:100-108 | a hook holding the booted container destroys it: its `instance` and `serverUrl` become null, `teardown` runs once, and its next init effect starts a fresh boot (promise 1) |
| Scenarios.HookSeesBootOnlyWhileMounted | modules/webcontainers/hooks/useWebContainer.ts:51-63 | an unmounted hook keeps `instance` null, `isLoading` true and `error` null; a mounted one records the container or the failure message |
| Scenarios.WriteBeforeBoot | modules/webcontainers/hooks/useWebContainer.ts:77-79 | a write before the instance is set throws "WebContainer instance is not available" |
| Scenarios.WriteAtRoot | modules/webcontainers/hooks/useWebContainer.ts:82-89 | "/index.js" is written with no `mkdir`, since its folder is "" |
| Scenarios.WriteNested | modules/webcontainers/hooks/useWebContainer.ts:82-89 | "src/app.js" creates "src" and then writes the file |
| Scenarios.WriteNestedMkdirFails | modules/webcontainers/hooks/useWebContainer.ts:90-95 | a failing `mkdir` with a non-Error cause writes nothing and is rethrown as "Failed to write file at src/app.js: Failed to write file" |

## Left out

- React machinery (`useState`, `useEffect`, `useCallback`, dependency arrays, re-rendering) is modelled as plain fields updated in place. `writeFileSync` reads the hook's current `instance` rather than the one its callback captured.
- Promise scheduling is not modelled beyond the explicit steps. When several init calls are suspended, `ResumeInit` may resume them in any order.
- Sandbox.FileSystem.Mkdir: the library's recursive creation of ancestor folders is not modelled. A successful `mkdir` adds exactly the requested folder, and a failing call changes nothing.
- `WebContainer.boot()`, `teardown()` and the filesystem are foreign. Their outcomes are parameters (`c`, `e`, `mkdirFault`, `writeFault`), and `teardown` is recorded in a ghost log only.
- `console.error` logging (lines 56, 93) is output only and is not modelled.
- No listener for the preview URL exists in this code, so none is modelled. The hook only ever holds a null `serverUrl`.
- `templateData` and the `TemplateFolder` type (`modules/playground/lib/path-to-json`) are unused by the hook. That file is not part of this model.
- JavaScript strings are sequences of UTF-16 code units. The model uses Dafny `char`. Splitting on the ASCII `/` behaves the same either way.
