/**
 * Clients of the hook model, each starting from a freshly loaded module:
 * what any number of concurrent callers observe, what a failed boot leaves
 * behind, what `destroy` followed by a new request does, and what an
 * unmounted hook does with a boot that settles late.
 */
module Scenarios {
  import opened Optional
  import opened Sandbox
  import opened UseWebContainer

  /**
   * `n` callers ask for the instance before the boot settles: all share the
   * first boot promise, exactly one boot is started, and once it fulfils
   * with `c` every one of them receives `c`, as does any later caller.
   */
  method ConcurrentCallsShareOneBoot(n: nat, c: Container)
    returns (replies: seq<Reply>, outcomes: seq<Settlement>, booted: nat, later: Reply)
    ensures |replies| == n && |outcomes| == n
    ensures forall i :: 0 <= i < n ==> replies[i] == Shared(0) && outcomes[i] == Fulfilled(c)
    ensures booted == (if n == 0 then 0 else 1)
    ensures n > 0 ==> later == Existing(c)
  {
    var g := new Globals();
    replies := [];
    var i := 0;
    while i < n
      invariant 0 <= i <= n && |replies| == i
      invariant g.Valid()
      invariant forall j :: 0 <= j < i ==> replies[j] == Shared(0)
      invariant g.webContainerInstance == null
      invariant i == 0 ==> g.boots == [] && g.bootPromise == None
      invariant i > 0 ==> g.boots == [Pending] && g.bootPromise == Some(0)
    {
      var r := g.GetWebContainerInstance();
      replies := replies + [r];
      i := i + 1;
    }
    booted := |g.boots|;
    if n > 0 {
      g.BootResolves(c);
    }
    outcomes := [];
    i := 0;
    while i < n
      invariant 0 <= i <= n && |outcomes| == i
      invariant n > 0 ==> g.boots == [Fulfilled(c)]
      invariant forall j :: 0 <= j < i ==> outcomes[j] == Fulfilled(c)
    {
      outcomes := outcomes + [g.Settles(replies[i])];
      i := i + 1;
    }
    later := g.GetWebContainerInstance();
  }

  /**
   * The boot fails with `e`; `n` further callers are handed the same
   * rejected promise, no second boot starts, and `destroy` cannot clear the
   * failure because no instance is cached.
   */
  method FailedBootIsSticky(n: nat, e: Thrown)
    returns (outcomes: seq<Settlement>, booted: nat, tornDown: bool)
    ensures |outcomes| == n
    ensures forall i :: 0 <= i < n ==> outcomes[i] == Rejected(e)
    ensures booted == 1 && !tornDown
  {
    var g := new Globals();
    var first := g.GetWebContainerInstance();
    g.BootFails(e);
    outcomes := [];
    var i := 0;
    while i < n
      invariant 0 <= i <= n && |outcomes| == i
      invariant g.Valid() && g.webContainerInstance == null
      invariant g.boots == [Rejected(e)] && g.bootPromise == Some(0)
      invariant forall j :: 0 <= j < i ==> outcomes[j] == Rejected(e)
    {
      var r := g.GetWebContainerInstance();
      outcomes := outcomes + [g.Settles(r)];
      i := i + 1;
    }
    tornDown := g.TeardownInstance();
    var again := g.GetWebContainerInstance();
    booted := |g.boots|;
  }

  /**
   * A hook's boot fulfils with `c` and the hook records it; the hook's
   * `destroy` tears `c` down once and resets the hook's `instance` and
   * `serverUrl`; the hook's next init effect starts a fresh boot instead of
   * reusing `c`.
   */
  method DestroyThenReboot(c: Container)
    returns (before: Container?, after: Container?, url: Option<string>, second: Reply, booted: nat)
    ensures before == c && after == null && url == None
    ensures second == Shared(1) && booted == 2
  {
    var g := new Globals();
    var hook := new WebContainerHook(g);
    hook.RunInitEffect();
    g.BootResolves(c);
    hook.ResumeInit(0);
    before := hook.instance;
    hook.Destroy();
    assert g.teardowns == [c];
    after, url := hook.instance, hook.serverUrl;
    hook.RunInitEffect();
    second := hook.suspended[|hook.suspended| - 1];
    booted := |g.boots|;
  }

  /**
   * A hook mounts and starts the boot; it is unmounted when `unmountFirst`
   * holds; then the boot settles (fulfilling with `c`, or rejecting with
   * the thrown value in `fault`) and the init effect resumes. Only a
   * still-mounted hook records the outcome.
   */
  method HookSeesBootOnlyWhileMounted(unmountFirst: bool, c: Container, fault: Option<Thrown>)
    returns (instance: Container?, isLoading: bool, error: Option<string>)
    ensures unmountFirst ==> instance == null && isLoading && error == None
    ensures !unmountFirst && fault.None? ==> instance == c && !isLoading && error == None
    ensures !unmountFirst && fault.Some? ==>
      instance == null && !isLoading && error == Some(InitFailureMessage(fault.value))
  {
    var g := new Globals();
    var hook := new WebContainerHook(g);
    hook.RunInitEffect();
    if unmountFirst {
      hook.Unmount();
    }
    if fault.None? {
      g.BootResolves(c);
    } else {
      g.BootFails(fault.value);
    }
    hook.ResumeInit(0);
    instance, isLoading, error := hook.instance, hook.isLoading, hook.error;
  }

  /** A hook whose boot has not fulfilled refuses to write. */
  method WriteBeforeBoot() returns (r: Completion)
    ensures r == Threw(NoInstanceMessage)
  {
    var g := new Globals();
    var hook := new WebContainerHook(g);
    hook.RunInitEffect();
    r := hook.WriteFileSync("/index.js", "ab", None, None);
  }

  /** A hook whose init effect received `c`, ready to write into `c.fs`. */
  method BootedHook(c: Container) returns (hook: WebContainerHook)
    ensures fresh(hook) && hook.Valid() && hook.instance == c
  {
    var g := new Globals();
    hook := new WebContainerHook(g);
    hook.RunInitEffect();
    g.BootResolves(c);
    hook.ResumeInit(0);
  }

  /** A path whose only separator is the leading one is written without a `mkdir`. */
  method WriteAtRoot() returns (r: Completion, dirs: set<string>, files: map<string, string>)
    ensures r == Done && dirs == {} && files == map["/index.js" := "ab"]
  {
    var fs := new FileSystem();
    var c := new Container(fs);
    var hook := BootedHook(c);
    var path := "/index.js";
    assert path[0] == '/' && forall j :: 0 < j < |path| ==> path[j] != '/';
    assert Paths.LastSlash(path) == 0;
    r := hook.WriteFileSync(path, "ab", None, None);
    dirs, files := fs.dirs, fs.files;
  }

  /** A nested path gets its folder created before the file is written. */
  method WriteNested() returns (r: Completion, dirs: set<string>, files: map<string, string>)
    ensures r == Done && dirs == {"src"} && files == map["src/app.js" := "x"]
  {
    var fs := new FileSystem();
    var c := new Container(fs);
    var hook := BootedHook(c);
    var path := "src/app.js";
    assert path[3] == '/' && forall j :: 3 < j < |path| ==> path[j] != '/';
    assert Paths.LastSlash(path) == 3;
    assert path[..3] == "src";
    r := hook.WriteFileSync(path, "x", None, None);
    dirs, files := fs.dirs, fs.files;
  }

  /** A failing `mkdir` stops the write and is rethrown with the path. */
  method WriteNestedMkdirFails() returns (r: Completion, files: map<string, string>)
    ensures r == Threw(WriteFailureMessage("src/app.js", NonError)) && files == map[]
  {
    var fs := new FileSystem();
    var c := new Container(fs);
    var hook := BootedHook(c);
    var path := "src/app.js";
    assert path[3] == '/' && forall j :: 3 < j < |path| ==> path[j] != '/';
    assert Paths.LastSlash(path) == 3;
    r := hook.WriteFileSync(path, "x", Some(NonError), None);
    files := fs.files;
  }
}
