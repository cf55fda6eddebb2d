/**
 * The `useWebContainer` hook: a process-wide, lazily booted WebContainer
 * shared by every caller (the module-level `webContainerInstance` and
 * `bootPromise`), the per-hook state the init effect fills in, and
 * `writeFileSync` and `destroy`.
 *
 * Asynchrony is written as explicit steps. `GetWebContainerInstance` runs a
 * call up to its first `await`; `BootResolves` and `BootFails` are the
 * library's boot promise settling; `ResumeInit` is one suspended
 * `initializeWebContainer` continuing after its `await`.
 */
module UseWebContainer {
  import opened Optional
  import opened Sandbox
  import Paths

  /** The state of a promise returned by `WebContainer.boot()`. */
  datatype Settlement = Pending | Fulfilled(container: Container) | Rejected(reason: Thrown)

  /**
   * What `getWebContainerInstance` hands its caller: the existing instance,
   * or the boot promise (by serial number) the caller now awaits.
   */
  datatype Reply = Existing(container: Container) | Shared(promise: nat)

  /** How an `async` callback of the hook ends: normally, or by throwing an `Error` with a message. */
  datatype Completion = Done | Threw(message: string)

  const NoInstanceMessage: string := "WebContainer instance is not available"
  const InitFailureFallback: string := "Failed to initialize WebContainer"
  const WriteFailureFallback: string := "Failed to write file"
  const WriteFailurePrefix: string := "Failed to write file at "

  /** `e instanceof Error ? e.message : fallback`. */
  function MessageOf(e: Thrown, fallback: string): string
  {
    match e
    case ErrorObject(m) => m
    case NonError => fallback
  }

  /** The text the init effect stores in `error` when the boot it awaited failed (lines 58-62). */
  function InitFailureMessage(e: Thrown): string
  {
    MessageOf(e, InitFailureFallback)
  }

  /** The message `writeFileSync` rethrows when a filesystem call fails (lines 91-94). */
  function WriteFailureMessage(path: string, cause: Thrown): string
  {
    WriteFailurePrefix + path + ": " + MessageOf(cause, WriteFailureFallback)
  }

  /** The wrapped message names the path and carries the cause's own message, or the fallback. */
  lemma WriteFailureMessageParts(path: string, cause: Thrown)
    ensures var m := WriteFailureMessage(path, cause);
      var n := |WriteFailurePrefix| + |path|;
      && |m| >= n + 2
      && m[..|WriteFailurePrefix|] == WriteFailurePrefix
      && m[|WriteFailurePrefix|..n] == path
      && m[n..n + 2] == ": "
      && m[n + 2..] == (if cause.ErrorObject? then cause.message else WriteFailureFallback)
  {
  }

  /**
   * The filesystem calls `writeFileSync` issues when none of them fails:
   * `mkdir` (recursive) of the folder before the last separator, only when
   * that folder is non-empty, then `writeFile` of the full path.
   */
  function WriteOps(path: string, content: string): (ops: seq<FsOp>)
    ensures 1 <= |ops| <= 2
    ensures ops[|ops| - 1] == FsOp.WriteFile(path, content)
    ensures |ops| == 2 <==> Paths.LastSlash(path) > 0
    ensures |ops| == 2 ==> ops[0] == MkdirRecursive(path[..Paths.LastSlash(path)])
  {
    var folder := Paths.ParentFolder(path);
    Paths.ParentFolderBeforeLastSlash(path);
    if folder != "" then [MkdirRecursive(folder), FsOp.WriteFile(path, content)]
    else [FsOp.WriteFile(path, content)]
  }

  /**
   * The module-level `webContainerInstance` and `bootPromise` (lines 18-19),
   * shared by every hook in the process, together with the promises
   * `WebContainer.boot()` has returned so far.
   */
  class Globals {
    var webContainerInstance: Container?
    /** Serial number, in `boots`, of the promise held in `bootPromise`. */
    var bootPromise: Option<nat>
    /** Every promise `WebContainer.boot()` has returned, by serial number. */
    var boots: seq<Settlement>
    /** Calls to `WebContainer.boot()` since the last reset by `destroy`. */
    ghost var bootsStarted: nat
    /** Every container `teardown()` was called on, in order. */
    ghost var teardowns: seq<Container>

    /**
     * An instance is cached exactly when the current boot promise fulfilled,
     * and it is that promise's value; the current promise is the latest
     * boot; every earlier boot fulfilled (it was reset by `destroy`); and at
     * most one boot has been started since the last reset.
     */
    ghost predicate Valid()
      reads this
    {
      && (bootPromise.Some? ==> bootPromise.value == |boots| - 1)
      && (webContainerInstance != null <==> bootPromise.Some? && boots[bootPromise.value].Fulfilled?)
      && (webContainerInstance != null ==> boots[bootPromise.value].container == webContainerInstance)
      && (forall i :: 0 <= i < |boots| && bootPromise != Some(i) ==> boots[i].Fulfilled?)
      && bootsStarted == (if bootPromise.Some? then 1 else 0)
    }

    /** Whether a reply refers only to promises that exist. */
    predicate Answerable(r: Reply)
      reads this
    {
      r.Shared? ==> r.promise < |boots|
    }

    /** What the caller holding `r` will receive once it resumes. */
    function Settles(r: Reply): Settlement
      reads this
      requires Answerable(r)
    {
      match r
      case Existing(c) => Fulfilled(c)
      case Shared(p) => boots[p]
    }

    /** Whether a boot is in flight: a promise is held and has not settled. */
    predicate InFlight()
      reads this
    {
      bootPromise.Some? && bootPromise.value < |boots| && boots[bootPromise.value].Pending?
    }

    /** Module load: nothing booted, nothing cached. */
    constructor ()
      ensures Valid()
      ensures webContainerInstance == null && bootPromise == None && boots == [] && teardowns == []
    {
      webContainerInstance, bootPromise, boots := null, None, [];
      bootsStarted, teardowns := 0, [];
    }

    /**
     * `getWebContainerInstance` up to its `await` (lines 21-30): the cached
     * instance if there is one; otherwise the boot already in flight (or
     * already failed); otherwise exactly one new boot.
     */
    method GetWebContainerInstance() returns (r: Reply)
      requires Valid()
      modifies this
      ensures Valid() && Answerable(r)
      ensures old(webContainerInstance) != null ==> r == Existing(old(webContainerInstance)) && unchanged(this)
      ensures old(webContainerInstance) == null && old(bootPromise).Some? ==>
        r == Shared(old(bootPromise).value) && unchanged(this)
      ensures old(webContainerInstance) == null && old(bootPromise).None? ==>
        && r == Shared(|old(boots)|)
        && boots == old(boots) + [Pending]
        && bootPromise == Some(|old(boots)|)
        && webContainerInstance == null
        && bootsStarted == old(bootsStarted) + 1
        && teardowns == old(teardowns)
    {
      if webContainerInstance != null {
        return Existing(webContainerInstance);
      }
      if bootPromise.Some? {
        return Shared(bootPromise.value);
      }
      r := Shared(|boots|);
      boots := boots + [Pending];
      bootPromise := Some(|boots| - 1);
      bootsStarted := bootsStarted + 1;
    }

    /** The boot in flight fulfils with `c`; its starter caches it (line 31). */
    method BootResolves(c: Container)
      requires Valid() && InFlight()
      modifies this
      ensures Valid()
      ensures boots == old(boots)[old(bootPromise).value := Fulfilled(c)]
      ensures webContainerInstance == c
      ensures bootPromise == old(bootPromise) && bootsStarted == old(bootsStarted) && teardowns == old(teardowns)
    {
      boots := boots[bootPromise.value := Fulfilled(c)];
      webContainerInstance := c;
    }

    /**
     * The boot in flight rejects with `e`. Nothing is cleared: `bootPromise`
     * keeps the rejected promise, so the failure is sticky.
     */
    method BootFails(e: Thrown)
      requires Valid() && InFlight()
      modifies this
      ensures Valid()
      ensures boots == old(boots)[old(bootPromise).value := Rejected(e)]
      ensures webContainerInstance == null
      ensures bootPromise == old(bootPromise) && bootsStarted == old(bootsStarted) && teardowns == old(teardowns)
    {
      boots := boots[bootPromise.value := Rejected(e)];
    }

    /**
     * The module-level half of `destroy` (lines 101-104): only when an
     * instance is cached, tear it down once and clear both fields.
     */
    method TeardownInstance() returns (tornDown: bool)
      requires Valid()
      modifies this
      ensures Valid()
      ensures tornDown == (old(webContainerInstance) != null)
      ensures tornDown ==>
        && webContainerInstance == null && bootPromise == None
        && teardowns == old(teardowns) + [old(webContainerInstance)]
        && boots == old(boots) && bootsStarted == 0
      ensures !tornDown ==> unchanged(this)
    {
      tornDown := webContainerInstance != null;
      if tornDown {
        teardowns := teardowns + [webContainerInstance];
        webContainerInstance := null;
        bootPromise := None;
        bootsStarted := 0;
      }
    }
  }

  /** The per-hook state of one component using `useWebContainer` (lines 38-42). */
  class WebContainerHook {
    const globals: Globals
    var serverUrl: Option<string>
    var isLoading: bool
    var error: Option<string>
    var instance: Container?
    /** `mountedRef.current`. */
    var mounted: bool
    /** The `initializeWebContainer` calls suspended at their `await` (line 49), with what each awaits. */
    var suspended: seq<Reply>

    /**
     * The shared state is consistent, every suspended call awaits an
     * existing promise, and `serverUrl` stays null: nothing in the hook
     * sets it to a URL.
     */
    ghost predicate Valid()
      reads this, globals
    {
      && globals.Valid()
      && serverUrl == None
      && (forall i :: 0 <= i < |suspended| ==> globals.Answerable(suspended[i]))
    }

    /** The first render: the initial `useState` values and `useRef(true)`. */
    constructor (globals: Globals)
      requires globals.Valid()
      ensures Valid() && this.globals == globals
      ensures serverUrl == None && isLoading && error == None && instance == null
      ensures mounted && suspended == []
    {
      this.globals := globals;
      serverUrl, isLoading, error, instance := None, true, None, null;
      mounted, suspended := true, [];
    }

    /**
     * The init effect (lines 44-68): mark the hook mounted and run
     * `initializeWebContainer` until it awaits `getWebContainerInstance`.
     */
    method RunInitEffect()
      requires Valid()
      modifies this, globals
      ensures Valid() && mounted
      ensures |suspended| == |old(suspended)| + 1 && suspended[..|old(suspended)|] == old(suspended)
      ensures old(globals.webContainerInstance) != null ==>
        suspended[|suspended| - 1] == Existing(old(globals.webContainerInstance)) && unchanged(globals)
      ensures old(globals.webContainerInstance) == null ==>
        globals.bootPromise.Some? && suspended[|suspended| - 1] == Shared(globals.bootPromise.value)
      ensures old(globals.webContainerInstance) == null && old(globals.bootPromise).Some? ==> unchanged(globals)
      ensures old(globals.webContainerInstance) == null && old(globals.bootPromise).None? ==>
        && globals.boots == old(globals.boots) + [Pending] && globals.bootsStarted == 1
        && globals.teardowns == old(globals.teardowns)
      ensures serverUrl == old(serverUrl) && isLoading == old(isLoading)
      ensures error == old(error) && instance == old(instance)
    {
      mounted := true;
      var r := globals.GetWebContainerInstance();
      suspended := suspended + [r];
    }

    /** The effect's cleanup (lines 70-72). */
    method Unmount()
      requires Valid()
      modifies this
      ensures Valid() && !mounted
      ensures serverUrl == old(serverUrl) && isLoading == old(isLoading) && error == old(error)
      ensures instance == old(instance) && suspended == old(suspended)
    {
      mounted := false;
    }

    /**
     * The `k`-th suspended `initializeWebContainer` resumes once what it
     * awaits has settled (lines 49-64). While mounted, success stores the
     * instance and failure the error's message (or the fallback text), and
     * either clears `isLoading`; after unmount nothing changes.
     */
    method ResumeInit(k: nat)
      requires Valid() && k < |suspended| && globals.Settles(suspended[k]) != Pending
      modifies this
      ensures Valid()
      ensures suspended == old(suspended[..k] + suspended[k + 1..])
      ensures mounted == old(mounted) && serverUrl == old(serverUrl)
      ensures !mounted ==> instance == old(instance) && isLoading == old(isLoading) && error == old(error)
      ensures var outcome := globals.Settles(old(suspended[k]));
        mounted && outcome.Fulfilled? ==> instance == outcome.container && !isLoading && error == old(error)
      ensures var outcome := globals.Settles(old(suspended[k]));
        mounted && outcome.Rejected? ==>
          error == Some(InitFailureMessage(outcome.reason)) && !isLoading && instance == old(instance)
    {
      var outcome := globals.Settles(suspended[k]);
      suspended := suspended[..k] + suspended[k + 1..];
      match outcome
      case Fulfilled(c) =>
        if !mounted {
          return;
        }
        instance := c;
        isLoading := false;
      case Rejected(e) =>
        if mounted {
          error := Some(InitFailureMessage(e));
          isLoading := false;
        }
    }

    /** The filesystem `writeFileSync` may touch: that of the hook's instance, if any. */
    function FsFrame(): set<object>
      reads this
    {
      if instance == null then {} else {instance.fs}
    }

    /**
     * `writeFileSync(path, content)` (lines 76-95). With no instance it
     * throws and touches no filesystem. Otherwise it issues `WriteOps`,
     * stopping at the first call that fails; a failure is rethrown wrapped
     * with the path, never swallowed. `mkdirFault` and `writeFault` are what
     * the library's `mkdir` and `writeFile` would throw.
     */
    method WriteFileSync(path: string, content: string, mkdirFault: Option<Thrown>, writeFault: Option<Thrown>)
      returns (r: Completion)
      requires Valid()
      modifies FsFrame()
      ensures Valid()
      ensures instance == null ==> r == Threw(NoInstanceMessage)
      ensures instance != null ==>
        var fs := instance.fs;
        var ops := WriteOps(path, content);
        var mkdirFailed := |ops| == 2 && mkdirFault.Some?;
        && fs.log == old(fs.log) + (if mkdirFailed then ops[..1] else ops)
        && fs.dirs == (if |ops| == 2 && mkdirFault.None? then old(fs.dirs) + {ops[0].path} else old(fs.dirs))
        && fs.files == (if !mkdirFailed && writeFault.None? then old(fs.files)[path := content] else old(fs.files))
        && r == (if mkdirFailed then Threw(WriteFailureMessage(path, mkdirFault.value))
                 else if writeFault.Some? then Threw(WriteFailureMessage(path, writeFault.value))
                 else Done)
    {
      if instance == null {
        return Threw(NoInstanceMessage);
      }
      var fs := instance.fs;
      var folder := Paths.ParentFolder(path);
      if folder != "" {
        var failure := fs.Mkdir(folder, mkdirFault);
        if failure.Some? {
          return Threw(WriteFailureMessage(path, failure.value));
        }
      }
      var failure := fs.WriteFile(path, content, writeFault);
      if failure.Some? {
        return Threw(WriteFailureMessage(path, failure.value));
      }
      r := Done;
    }

    /**
     * `destroy` (lines 100-108): only when an instance is cached, tear it
     * down, clear both module-level fields and reset the hook's `instance`
     * and `serverUrl`; otherwise, including mid-boot, change nothing.
     */
    method Destroy()
      requires Valid()
      modifies this, globals
      ensures Valid()
      ensures old(globals.webContainerInstance) != null ==>
        && globals.webContainerInstance == null && globals.bootPromise == None
        && globals.teardowns == old(globals.teardowns) + [old(globals.webContainerInstance)]
        && globals.boots == old(globals.boots)
        && instance == null && serverUrl == None
      ensures old(globals.webContainerInstance) == null ==> unchanged(globals) && instance == old(instance)
      ensures mounted == old(mounted) && isLoading == old(isLoading) && error == old(error)
      ensures suspended == old(suspended)
    {
      var tornDown := globals.TeardownInstance();
      if tornDown {
        instance := null;
        serverUrl := None;
      }
    }
  }
}
