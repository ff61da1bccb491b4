/**
 * frpc_service.py: the supervisor of the two frpc clients.  The main client
 * is tracked through the global handle, the temporary (remote-assistance)
 * client through a PID file; both are (re)configured by a cloud registration
 * that writes their TOML configuration.
 *
 * Every operation is a method on `Host.App` that changes the machine step by
 * step as the source does, and is proved equal to a pure `...Step` function
 * of the old state; the properties the source promises are lemmas about
 * those functions.
 */
module FrpcService {
  import opened PyJson
  import opened Host

  /** What `register_proxy_to_cloud` returns: the configuration text and the
      visitor code, each possibly None. */
  datatype CloudReply = CloudReply(config: Option<string>, code: Option<string>)

  /** The answers of everything outside the model that the supervisor
      consults; each is used at most once per request. */
  datatype Oracles = Oracles(
    mainReply: Outcome<CloudReply>,  // register_proxy_to_cloud(..., is_tmp=False, force=True)
    tmpReply: Outcome<CloudReply>,   // register_proxy_to_cloud(..., is_tmp=True)
    which: Option<string>,           // shutil.which("frpc")
    mainSpawn: Option<Pid>,          // pid of the main Popen; None when it raised
    tmpSpawn: Option<Pid>,           // pid of the temporary Popen; None when it raised
    exitsOnTerm: bool,               // the main child exits within 5 s of terminate()
    tmpSurvivors: set<Pid>)          // processes that outlive the SIGTERM of `kill` and `pkill`

  /** The state after an operation, and what the operation returned. */
  datatype Step<T> = Step(world: World, value: T)

  /** A message returned next to a success flag: literal text, or `str(e)` of
      a caught exception (whose wording is not modelled). */
  datatype Msg = Plain(text: string) | ExcText(exc: Exc)

  datatype Signal = Term | Kill

  /** Python truthiness of an optional string. */
  predicate NonEmpty(s: Option<string>)
  {
    s.Some? && s.value != ""
  }

  // ============================================================ main client

  /** `check_frpc_running()`: the handle is set and its child has not exited. */
  predicate IsRunning(w: World)
  {
    w.handle.Some? && w.handle.value in w.procs
  }

  /** The binaries `start_frpc` tries, in order. */
  function SearchPaths(which: Option<string>): seq<string>
  {
    [BundledBinary, "/usr/local/bin/frpc", "/usr/bin/frpc",
     if NonEmpty(which) then which.value else "/usr/bin/frpc"]
  }

  /** The position of the first path of the list that exists, or the
      length of the list when none does. */
  function FirstExistingIndex(files: map<string, File>, paths: seq<string>): (i: nat)
    ensures i <= |paths|
    ensures forall j :: 0 <= j < i ==> paths[j] !in files
    ensures i < |paths| ==> paths[i] in files
  {
    if paths == [] then 0
    else if paths[0] in files then 0
    else 1 + FirstExistingIndex(files, paths[1..])
  }

  /** The first path of the list that exists. */
  function FirstExisting(files: map<string, File>, paths: seq<string>): (r: Option<string>)
    ensures r.None? <==> forall i :: 0 <= i < |paths| ==> paths[i] !in files
    ensures r.Some? ==> r.value in files
  {
    var i := FirstExistingIndex(files, paths);
    if i < |paths| then Some(paths[i]) else None
  }

  /** The loop of `start_frpc` over the search paths. */
  method FindBinary(app: App, which: Option<string>) returns (binary: Option<string>)
    ensures binary == FirstExisting(app.files, SearchPaths(which))
  {
    var paths := SearchPaths(which);
    binary := None;
    var i := 0;
    while i < |paths|
      invariant 0 <= i <= |paths|
      invariant forall j :: 0 <= j < i ==> paths[j] !in app.files
    {
      if paths[i] in app.files {
        assert FirstExistingIndex(app.files, paths) == i;
        binary := Some(paths[i]);
        return;
      }
      i := i + 1;
    }
  }

  /** `start_frpc()`. */
  function StartFrpcStep(w: World, o: Oracles): (r: Step<bool>)
    ensures !r.value ==> r.world.handle == w.handle && r.world.procs == w.procs
    ensures r.value <==> FrpcToml in w.files && FirstExisting(w.files, SearchPaths(o.which)).Some? &&
                         o.mainSpawn.Some?
    ensures r.world.files.Keys <= w.files.Keys + {FrpcLog}
  {
    if FrpcToml !in w.files then Step(w, false)
    else match FirstExisting(w.files, SearchPaths(o.which))
      case None => Step(w, false)
      case Some(binary) =>
        var files := Touch(w.files, FrpcLog);
        match o.mainSpawn
        case None => Step(w.(files := files), false)
        case Some(pid) =>
          Step(World(files, w.procs[pid := Proc(binary, FrpcToml)], Some(pid)), true)
  }

  method StartFrpc(app: App, o: Oracles) returns (ok: bool)
    modifies app
    ensures Step(app.State(), ok) == StartFrpcStep(old(app.State()), o)
  {
    if FrpcToml !in app.files {
      return false;
    }
    var binary := FindBinary(app, o.which);
    if binary.None? {
      return false;
    }
    app.OpenForAppend(FrpcLog);
    match o.mainSpawn
    case None =>
      ok := false;
    case Some(pid) =>
      app.Spawn(pid, Proc(binary.value, FrpcToml));
      app.SetHandle(Some(pid));
      ok := true;
  }

  /** A successful start uses the first existing binary of the search order
      and makes the handle point at a live child running `frpc.toml`. */
  lemma StartFrpcUsesFirstBinary(w: World, o: Oracles)
    requires StartFrpcStep(w, o).value
    ensures var b := FirstExisting(w.files, SearchPaths(o.which));
      && b.Some? && o.mainSpawn.Some?
      && StartFrpcStep(w, o).world.procs == w.procs[o.mainSpawn.value := Proc(b.value, FrpcToml)]
      && StartFrpcStep(w, o).world.handle == o.mainSpawn
      && IsRunning(StartFrpcStep(w, o).world)
  {
  }

  /** `start_frpc` does not look at the handle first: starting while the main
      child is running leaves the old child alive but no longer tracked. */
  lemma StartWhileRunningOrphansChild(w: World, o: Oracles)
    requires IsRunning(w) && StartFrpcStep(w, o).value && o.mainSpawn != w.handle
    ensures w.handle.value in StartFrpcStep(w, o).world.procs
    ensures StartFrpcStep(w, o).world.handle != w.handle
  {
  }

  /** `stop_frpc()`: on a live handle, terminate (and kill when the child does
      not exit within the timeout), then clear the handle; always True. The
      value is the list of signals sent. */
  function StopFrpcStep(w: World, o: Oracles): (r: Step<seq<Signal>>)
    ensures !IsRunning(r.world)
    ensures r.world.files == w.files
    ensures IsRunning(w) ==> r.world.procs == w.procs - {w.handle.value} && r.world.handle == None
    ensures IsRunning(w) ==> r.value == if o.exitsOnTerm then [Term] else [Term, Kill]
    ensures !IsRunning(w) ==> r == Step(w, [])
  {
    if IsRunning(w) then
      var pid := w.handle.value;
      Step(w.(procs := w.procs - {pid}, handle := None),
           if o.exitsOnTerm then [Term] else [Term, Kill])
    else Step(w, [])
  }

  method StopFrpc(app: App, o: Oracles) returns (ok: bool, signals: seq<Signal>)
    modifies app
    ensures ok
    ensures Step(app.State(), signals) == StopFrpcStep(old(app.State()), o)
  {
    if app.handle.Some? && app.handle.value in app.procs {
      var pid := app.handle.value;
      signals := [Term];
      if !o.exitsOnTerm {
        signals := signals + [Kill];
        assert signals == [Term, Kill];
      }
      app.Kill(pid);
      app.SetHandle(None);
    } else {
      signals := [];
    }
    ok := true;
  }

  /** `restart_frpc()`: stop, pause, start; True whatever start returned. */
  function RestartFrpcStep(w: World, o: Oracles): (r: Step<bool>)
    ensures r.value
  {
    Step(StartFrpcStep(StopFrpcStep(w, o).world, o).world, true)
  }

  method RestartFrpc(app: App, o: Oracles) returns (ok: bool)
    modifies app
    ensures Step(app.State(), ok) == RestartFrpcStep(old(app.State()), o)
  {
    var _, _ := StopFrpc(app, o);
    var _ := StartFrpc(app, o);
    ok := true;
  }

  /** After a restart the main child runs iff the start after the stop
      succeeded, and a previously running child is gone. */
  lemma RestartReplacesChild(w: World, o: Oracles)
    ensures var w1 := StopFrpcStep(w, o).world;
      IsRunning(RestartFrpcStep(w, o).world) <==> StartFrpcStep(w1, o).value
    ensures IsRunning(w) && o.mainSpawn != w.handle ==>
      w.handle.value !in RestartFrpcStep(w, o).world.procs
  {
    var w1 := StopFrpcStep(w, o).world;
    if !StartFrpcStep(w1, o).value {
      assert RestartFrpcStep(w, o).world.handle == w1.handle;
    }
  }

  // ============================================================ cloud format

  /** The cloud entry for one rule. */
  function CloudEntry(localPort: string, remotePort: string): Json
  {
    JObj([("localIp", JStr("127.0.0.1")), ("localPort", JStr(localPort)),
          ("remotePort", JStr(remotePort)), ("type", JStr("tcp"))])
  }

  /** What one rule contributes: nothing when `item.get` raises (not a dict)
      or when `str()` of either port is empty. */
  function CloudEntriesOf(item: Json): (r: seq<Json>)
    ensures |r| <= 1
  {
    match (Get(item, "localPort", JStr("")), Get(item, "bindPort", JStr("")))
    case (Ok(lp), Ok(bp)) =>
      if PyStr(lp) != "" && PyStr(bp) != "" then [CloudEntry(PyStr(lp), PyStr(bp))] else []
    case _ => []
  }

  /** The `cloud_data` list built from the rules. */
  function CloudEntries(items: seq<Json>): seq<Json>
  {
    if items == [] then []
    else CloudEntries(items[..|items| - 1]) + CloudEntriesOf(items[|items| - 1])
  }

  /** Translation works rule by rule and keeps the order of the rules. */
  lemma {:induction false} CloudEntriesAppend(a: seq<Json>, b: seq<Json>)
    ensures CloudEntries(a + b) == CloudEntries(a) + CloudEntries(b)
  {
    if b != [] {
      var b' := b[..|b| - 1];
      assert (a + b)[..|a + b| - 1] == a + b';
      assert (a + b)[|a + b| - 1] == b[|b| - 1];
      CloudEntriesAppend(a, b');
    } else {
      assert a + b == a;
    }
  }

  /** Every output entry has the cloud shape, and there are never more
      entries than rules. */
  lemma {:induction false} CloudEntriesShape(items: seq<Json>)
    ensures |CloudEntries(items)| <= |items|
    ensures forall e :: e in CloudEntries(items) ==>
      exists l, r :: l != "" && r != "" && e == CloudEntry(l, r)
  {
    if items != [] {
      CloudEntriesShape(items[..|items| - 1]);
    }
  }

  /** A rule whose ports are integers gives the entry with the decimal
      texts of both ports, whatever other fields it has. */
  lemma CloudEntryOfIntPorts(fs: seq<(string, Json)>, lp: int, bp: int)
    requires Lookup(fs, "localPort") == Some(JInt(lp)) && Lookup(fs, "bindPort") == Some(JInt(bp))
    ensures CloudEntriesOf(JObj(fs)) == [CloudEntry(IntToDec(lp), IntToDec(bp))]
  {
  }

  /** A rule without a bindPort is dropped (`str('')` is empty), but one
      whose bindPort is None is kept with the remote port "None". */
  lemma CloudEntryMissingPort(lp: int)
    ensures CloudEntriesOf(JObj([("localPort", JInt(lp))])) == []
    ensures CloudEntriesOf(JObj([("localPort", JInt(lp)), ("bindPort", JNull)]))
      == [CloudEntry(IntToDec(lp), "None")]
  {
    var fs := [("localPort", JInt(lp)), ("bindPort", JNull)];
    assert Lookup([("localPort", JInt(lp))], "bindPort") == None by {
      assert "localPort" != "bindPort";
    }
    assert Lookup(fs, "bindPort") == Some(JNull) by {
      assert fs[0].0 != "bindPort" && fs[1..] == [("bindPort", JNull)];
    }
  }

  /** `convert_to_cloud_format(input_file, output_file)`. */
  function ConvertStep(w: World, input: string, output: string): (r: Step<bool>)
    ensures r.world.procs == w.procs && r.world.handle == w.handle
    ensures r.value <==> LoadJson(w.files, input).Ok? && Iterate(LoadJson(w.files, input).value).Ok?
    ensures r.value ==>
      r.world.files == w.files[output := Doc(JArr(CloudEntries(Iterate(LoadJson(w.files, input).value).value)))]
    ensures !r.value ==> r.world == w
  {
    if input !in w.files then Step(w, false)
    else match LoadJson(w.files, input)
      case Raise(_) => Step(w, false)
      case Ok(data) =>
        match Iterate(data)
        case Raise(_) => Step(w, false)
        case Ok(items) => Step(w.(files := w.files[output := Doc(JArr(CloudEntries(items)))]), true)
  }

  method ConvertToCloudFormat(app: App, input: string, output: string) returns (ok: bool)
    modifies app
    ensures Step(app.State(), ok) == ConvertStep(old(app.State()), input, output)
  {
    if input !in app.files {
      return false;
    }
    var data := LoadJson(app.files, input);
    if data.Raise? {
      return false;
    }
    var items := Iterate(data.value);
    if items.Raise? {
      return false;
    }
    var cloudData: seq<Json> := [];
    var i := 0;
    while i < |items.value|
      invariant 0 <= i <= |items.value|
      invariant cloudData == CloudEntries(items.value[..i])
    {
      var item := items.value[i];
      assert items.value[..i + 1][..i] == items.value[..i];
      var localPort := Get(item, "localPort", JStr(""));
      var remotePort := Get(item, "bindPort", JStr(""));
      if localPort.Ok? && remotePort.Ok? {
        var l, r := PyStr(localPort.value), PyStr(remotePort.value);
        if l != "" && r != "" {
          cloudData := cloudData + [CloudEntry(l, r)];
        }
      }
      i := i + 1;
    }
    assert items.value[..i] == items.value;
    app.WriteFile(output, Doc(JArr(cloudData)));
    ok := true;
  }

  // ============================================================ registration

  /** The file map after "copy the template if the target is missing and the
      template exists". */
  function WithTemplate(files: map<string, File>, target: string, template: string): (r: map<string, File>)
    ensures target in files ==> r == files
    ensures target !in files && template in files ==> r == files[target := files[template]]
    ensures target !in files && template !in files ==> r == files
  {
    if target !in files && template in files then files[target := files[template]] else files
  }

  /** `register_frpc_proxy()`: `frpc.toml` is overwritten only when the cloud
      returns non-empty configuration text. */
  function RegisterFrpcStep(w: World, reply: Outcome<CloudReply>): (r: Step<bool>)
    ensures r.world.procs == w.procs && r.world.handle == w.handle
    ensures var files := WithTemplate(w.files, RegisterJson, RegisterTemplate);
      r.value <==> (RegisterJson in files && LoadJson(files, RegisterJson).Ok? &&
                    reply.Ok? && NonEmpty(reply.value.config))
    ensures var files := WithTemplate(w.files, RegisterJson, RegisterTemplate);
      r.value ==> r.world.files == files[FrpcToml := Text(reply.value.config.value)]
    ensures !r.value ==> r.world.files == WithTemplate(w.files, RegisterJson, RegisterTemplate)
  {
    var files := WithTemplate(w.files, RegisterJson, RegisterTemplate);
    if RegisterJson !in files then Step(w.(files := files), false)
    else match LoadJson(files, RegisterJson)
      case Raise(_) => Step(w.(files := files), false)
      case Ok(_) =>
        match reply
        case Raise(_) => Step(w.(files := files), false)
        case Ok(answer) =>
          if NonEmpty(answer.config) then Step(w.(files := files[FrpcToml := Text(answer.config.value)]), true)
          else Step(w.(files := files), false)
  }

  method RegisterFrpcProxy(app: App, reply: Outcome<CloudReply>) returns (ok: bool)
    modifies app
    ensures Step(app.State(), ok) == RegisterFrpcStep(old(app.State()), reply)
  {
    if RegisterJson !in app.files && RegisterTemplate in app.files {
      app.CopyFile(RegisterTemplate, RegisterJson);
    }
    if RegisterJson !in app.files {
      return false;
    }
    var proxyList := LoadJson(app.files, RegisterJson);
    if proxyList.Raise? || reply.Raise? {
      return false;
    }
    var config := reply.value.config;
    if NonEmpty(config) {
      app.WriteFile(FrpcToml, Text(config.value));
      ok := true;
    } else {
      ok := false;
    }
  }

  /** A failed registration leaves an existing `frpc.toml` as it was. */
  lemma RegisterFailureKeepsConfig(w: World, reply: Outcome<CloudReply>)
    requires !RegisterFrpcStep(w, reply).value && FrpcToml in w.files
    ensures FrpcToml in RegisterFrpcStep(w, reply).world.files
    ensures RegisterFrpcStep(w, reply).world.files[FrpcToml] == w.files[FrpcToml]
  {
  }

  // ============================================================ temporary client

  /** Where a supervisor keeps the temporary client's files, and the two ways
      the two copies of the supervisor differ. */
  datatype TmpLayout = TmpLayout(
    config: string, binary: string, log: string, pidFile: string, visitorFile: string,
    whichFallback: bool,   // start falls back to `shutil.which("frpc") or "/usr/bin/frpc"`
    removesLog: bool)      // cleanup also deletes the log file

  const AppTmp: TmpLayout :=
    TmpLayout(TmpToml, BundledBinary, TmpLog, TmpPidFile, VisitorCodeFile, true, false)

  /** The pid recorded in the PID file, if it can be read as an int. */
  function RecordedPid(files: map<string, File>, pidFile: string): (r: Option<Pid>)
    ensures r.Some? ==> pidFile in files
  {
    match ReadText(files, pidFile)
    case Raise(_) => None
    case Ok(t) => ParseInt(Strip(t))
  }

  /** `check_tmp_frpc_running()`: the PID file exists, holds an int, and
      `kill -0` finds the process. */
  predicate TmpRunning(w: World, l: TmpLayout)
  {
    RecordedPid(w.files, l.pidFile).Some? && RecordedPid(w.files, l.pidFile).value in w.procs
  }

  method CheckTmpFrpcRunning(app: App, l: TmpLayout) returns (running: bool)
    ensures running <==> l.pidFile in app.files && RecordedPid(app.files, l.pidFile).Some? &&
                         RecordedPid(app.files, l.pidFile).value in app.procs
  {
    if l.pidFile !in app.files {
      return false;
    }
    var text := ReadText(app.files, l.pidFile);
    if text.Raise? {
      return false;
    }
    var pid := ParseInt(Strip(text.value));
    if pid.None? {
      return false;
    }
    running := pid.value in app.procs;
  }

  /** The binary `start_tmp_frpc` uses. */
  function TmpBinary(files: map<string, File>, l: TmpLayout, which: Option<string>): (r: Option<string>)
    ensures r.Some? ==> r.value in files
    ensures l.binary in files ==> r == Some(l.binary)
  {
    if l.binary in files then Some(l.binary)
    else if !l.whichFallback then None
    else
      var b := if NonEmpty(which) then which.value else "/usr/bin/frpc";
      if b in files then Some(b) else None
  }

  /** `start_tmp_frpc()`: spawn the client on the temporary config and
      record its pid in the PID file. */
  function StartTmpStep(w: World, l: TmpLayout, which: Option<string>, spawn: Option<Pid>): (r: Step<bool>)
    ensures r.world.handle == w.handle
    ensures r.value <==> l.config in w.files && TmpBinary(w.files, l, which).Some? && spawn.Some?
    ensures r.value ==> var pid := spawn.value;
      && r.world.procs == w.procs[pid := Proc(TmpBinary(w.files, l, which).value, l.config)]
      && r.world.files == Touch(w.files, l.log)[l.pidFile := Text(IntToDec(pid))]
    ensures !r.value ==> r.world.procs == w.procs
  {
    if l.config !in w.files then Step(w, false)
    else match TmpBinary(w.files, l, which)
      case None => Step(w, false)
      case Some(binary) =>
        var files := Touch(w.files, l.log);
        match spawn
        case None => Step(w.(files := files), false)
        case Some(pid) =>
          Step(w.(files := files[l.pidFile := Text(IntToDec(pid))],
                  procs := w.procs[pid := Proc(binary, l.config)]), true)
  }

  method StartTmpFrpc(app: App, l: TmpLayout, which: Option<string>, spawn: Option<Pid>) returns (ok: bool)
    modifies app
    ensures Step(app.State(), ok) == StartTmpStep(old(app.State()), l, which, spawn)
  {
    if l.config !in app.files {
      return false;
    }
    var binary := TmpBinary(app.files, l, which);
    if binary.None? {
      return false;
    }
    app.OpenForAppend(l.log);
    if spawn.None? {
      return false;
    }
    var pid := spawn.value;
    app.Spawn(pid, Proc(binary.value, l.config));
    app.WriteFile(l.pidFile, Text(IntToDec(pid)));
    ok := true;
  }

  /** The PID file written by a successful start reads back as the spawned
      pid, so the temporary client then counts as running. */
  lemma StartTmpThenRunning(w: World, l: TmpLayout, which: Option<string>, spawn: Option<Pid>)
    requires StartTmpStep(w, l, which, spawn).value
    ensures RecordedPid(StartTmpStep(w, l, which, spawn).world.files, l.pidFile) == spawn
    ensures TmpRunning(StartTmpStep(w, l, which, spawn).world, l)
  {
    ParseIntOfDec(spawn.value);
    StripDec(spawn.value);
  }

  lemma StripDec(n: int)
    ensures Strip(IntToDec(n)) == IntToDec(n)
  {
    var s := IntToDec(n);
    if n < 0 {
      assert s == "-" + NatToDec(-n);
      StripSigned(NatToDec(-n));
    } else {
      StripNoEdgeSpace(s);
    }
  }

  /** The `pkill -f 'frpc -c.*frpc_tmp.toml'` pattern: "frpc -c", then any
      text, then "frpc_tmp", any character, "toml". */
  predicate TmpPattern(p: Proc)
  {
    var cmd := CommandLine(p);
    exists i, j :: 0 <= i && i + 7 <= j && j + 13 <= |cmd| && PrefixAt(cmd, i) && SuffixAt(cmd, j)
  }

  predicate PrefixAt(cmd: string, i: int)
  {
    0 <= i && i + 7 <= |cmd| && cmd[i..i + 7] == "frpc -c"
  }

  /** "frpc_tmp.toml" at j, where the regular expression's "." before
      "toml" matches any character and the "_" only itself. */
  predicate SuffixAt(cmd: string, j: int)
  {
    && 0 <= j && j + 13 <= |cmd|
    && cmd[j..j + 8] == "frpc_tmp" && cmd[j + 9..j + 13] == "toml"
  }

  /** The processes left after the sweep: `pkill` sends SIGTERM, which the
      survivors outlive. */
  function Sweep(procs: map<Pid, Proc>, survivors: set<Pid>): (r: map<Pid, Proc>)
    ensures forall p :: p in r <==> p in procs && (!TmpPattern(procs[p]) || p in survivors)
    ensures forall p :: p in r ==> r[p] == procs[p]
  {
    map p | p in procs && (!TmpPattern(procs[p]) || p in survivors) :: procs[p]
  }

  /** A client started on a temporary config by a binary named frpc is one
      the sweep ends. */
  lemma TmpClientMatchesPattern(binary: string, config: string)
    requires |binary| >= 4 && binary[|binary| - 4..] == "frpc"
    requires |config| >= 13 && config[|config| - 13..] == "frpc_tmp.toml"
    ensures TmpPattern(Proc(binary, config))
  {
    var cmd := CommandLine(Proc(binary, config));
    var i, j := |binary| - 4, |cmd| - 13;
    assert cmd[i..i + 7] == binary[|binary| - 4..] + " -c";
    assert cmd[j..] == config[|config| - 13..];
    assert cmd[j..j + 8] == "frpc_tmp" && cmd[j + 9..j + 13] == "toml";
    assert PrefixAt(cmd, i) && SuffixAt(cmd, j);
  }

  /** A command line without "frpc_tmp" followed by one character and
      "toml" is spared by the sweep, whatever else it contains. */
  lemma SweepSparesOthers(procs: map<Pid, Proc>, survivors: set<Pid>, pid: Pid)
    requires pid in procs
    requires forall j :: !SuffixAt(CommandLine(procs[pid]), j)
    ensures pid in Sweep(procs, survivors) && Sweep(procs, survivors)[pid] == procs[pid]
  {
  }

  /** In particular a command line with no "_" at all is spared: a client
      of "/x/frpc-tmp.toml" keeps running. */
  lemma NoUnderscoreIsSpared(p: Proc)
    requires forall k :: 0 <= k < |CommandLine(p)| ==> CommandLine(p)[k] != '_'
    ensures !TmpPattern(p)
  {
    var cmd := CommandLine(p);
    forall j | 0 <= j && j + 13 <= |cmd|
      ensures !SuffixAt(cmd, j)
    {
      assert cmd[j..j + 8][4] == cmd[j + 4] != '_';
    }
  }

  /** A client of a dashed "frpc-tmp.toml" is not the temporary client. */
  lemma DashedConfigIsSpared()
    ensures !TmpPattern(Proc("/usr/bin/frpc", "/x/frpc-tmp.toml"))
  {
    var p := Proc("/usr/bin/frpc", "/x/frpc-tmp.toml");
    assert CommandLine(p) == "/usr/bin/frpc -c /x/frpc-tmp.toml";
    NoUnderscoreIsSpared(p);
  }

  /** `kill <pid>` with `check=True`: SIGTERM ends the process unless it is
      a survivor. The `kill -9` fallback runs only when `kill` itself fails,
      that is when no such process exists, so it ends nothing. */
  function TermOne(procs: map<Pid, Proc>, pid: Pid, survivors: set<Pid>): (r: map<Pid, Proc>)
    ensures pid in survivors ==> r == procs
    ensures pid !in survivors ==> r == procs - {pid}
  {
    if pid in survivors then procs else procs - {pid}
  }

  /** `stop_tmp_frpc()`: signal the recorded process, delete the PID file,
      sweep stray temporary clients; True even without a PID file. A PID
      file that does not hold an int makes it return False with nothing
      changed. Processes that outlive SIGTERM keep running. */
  function StopTmpStep(w: World, l: TmpLayout, survivors: set<Pid>): (r: Step<bool>)
    ensures r.world.handle == w.handle
    ensures r.value <==> l.pidFile !in w.files || RecordedPid(w.files, l.pidFile).Some?
    ensures r.value ==> r.world.files == RemoveIfExists(w.files, l.pidFile)
    ensures r.value && l.pidFile in w.files ==>
      r.world.procs == Sweep(TermOne(w.procs, RecordedPid(w.files, l.pidFile).value, survivors), survivors)
    ensures l.pidFile !in w.files ==> r.world.procs == Sweep(w.procs, survivors)
    ensures !r.value ==> r.world == w
  {
    if l.pidFile in w.files then
      match RecordedPid(w.files, l.pidFile)
      case None => Step(w, false)
      case Some(pid) =>
        Step(w.(files := RemoveIfExists(w.files, l.pidFile), procs := Sweep(TermOne(w.procs, pid, survivors), survivors)), true)
    else Step(w.(procs := Sweep(w.procs, survivors)), true)
  }

  method StopTmpFrpc(app: App, l: TmpLayout, survivors: set<Pid>) returns (ok: bool)
    modifies app
    ensures Step(app.State(), ok) == StopTmpStep(old(app.State()), l, survivors)
  {
    if l.pidFile in app.files {
      var pid := RecordedPid(app.files, l.pidFile);
      if pid.None? {
        return false;
      }
      if pid.value !in survivors {
        app.Kill(pid.value);
      }
      app.Unlink(l.pidFile);
    }
    ghost var before := app.procs;
    app.KillMatching(TmpPattern, survivors);
    SweepIsKillMatching(before, survivors, app.procs);
    ok := true;
  }

  /** What `KillMatching(TmpPattern, survivors)` leaves is the sweep. */
  lemma SweepIsKillMatching(before: map<Pid, Proc>, survivors: set<Pid>, after: map<Pid, Proc>)
    requires after == map p | p in before && (!TmpPattern(before[p]) || p in survivors) :: before[p]
    ensures after == Sweep(before, survivors)
  {
  }

  /** After a successful stop the temporary client no longer counts as
      running, and a temporary client that SIGTERM ends is gone. */
  lemma StopTmpEndsClients(w: World, l: TmpLayout, survivors: set<Pid>, pid: Pid)
    requires StopTmpStep(w, l, survivors).value
    requires pid in w.procs && pid !in survivors && w.procs[pid].config == l.config
    requires |w.procs[pid].binary| >= 4 && w.procs[pid].binary[|w.procs[pid].binary| - 4..] == "frpc"
    requires |l.config| >= 13 && l.config[|l.config| - 13..] == "frpc_tmp.toml"
    ensures !TmpRunning(StopTmpStep(w, l, survivors).world, l)
    ensures pid !in StopTmpStep(w, l, survivors).world.procs
  {
    TmpClientMatchesPattern(w.procs[pid].binary, l.config);
  }

  /** The stop sends only SIGTERM: a process that outlives it is still
      running afterwards, unchanged, although the stop reports True and the
      check no longer reports the temporary client as running. The stop
      never starts anything. */
  lemma StopTmpLeavesSurvivors(w: World, l: TmpLayout, survivors: set<Pid>, pid: Pid)
    requires pid in w.procs && pid in survivors
    ensures pid in StopTmpStep(w, l, survivors).world.procs
    ensures StopTmpStep(w, l, survivors).world.procs[pid] == w.procs[pid]
    ensures StopTmpStep(w, l, survivors).value ==> !TmpRunning(StopTmpStep(w, l, survivors).world, l)
    ensures StopTmpStep(w, l, survivors).world.procs.Keys <= w.procs.Keys
  {
  }

  /** `cleanup_tmp_frpc_files()`: stop, then delete the temporary config, the
      PID file and the visitor code (and, in one copy, the log); always True. */
  function CleanupStep(w: World, l: TmpLayout, survivors: set<Pid>): (r: Step<bool>)
    ensures r.value && r.world.handle == w.handle
    ensures l.config !in r.world.files && l.pidFile !in r.world.files && l.visitorFile !in r.world.files
    ensures l.removesLog ==> l.log !in r.world.files
    ensures r.world.procs == StopTmpStep(w, l, survivors).world.procs
  {
    var w1 := StopTmpStep(w, l, survivors).world;
    var files := RemoveIfExists(RemoveIfExists(RemoveIfExists(w1.files, l.config), l.pidFile), l.visitorFile);
    Step(w1.(files := if l.removesLog then RemoveIfExists(files, l.log) else files), true)
  }

  method CleanupTmpFrpcFiles(app: App, l: TmpLayout, survivors: set<Pid>) returns (ok: bool)
    modifies app
    ensures Step(app.State(), ok) == CleanupStep(old(app.State()), l, survivors)
  {
    var _ := StopTmpFrpc(app, l, survivors);
    app.Unlink(l.config);
    app.Unlink(l.pidFile);
    app.Unlink(l.visitorFile);
    if l.removesLog {
      app.Unlink(l.log);
    }
    ok := true;
  }

  /** A PID file that cannot be read as an int makes the stop give up, but
      the cleanup removes the PID file anyway. */
  lemma CleanupRemovesCorruptPidFile(w: World, l: TmpLayout, survivors: set<Pid>)
    requires l.pidFile in w.files && RecordedPid(w.files, l.pidFile).None?
    ensures !StopTmpStep(w, l, survivors).value && StopTmpStep(w, l, survivors).world == w
    ensures l.pidFile !in CleanupStep(w, l, survivors).world.files
    ensures CleanupStep(w, l, survivors).world.procs == w.procs
  {
  }

  /** What a save handler does to the temporary tunnel. */
  datatype TmpAction =
    | Enable    // register, then start on success
    | Disable   // clean up
    | Refresh   // register, then on success stop and start
    | Keep      // nothing

  const MissingTmpRules: string := "register_proxy_tmp.json 不存在"
  const TmpConfigFailed: string := "获取临时配置失败"

  /** `register_tmp_proxy()`: on success the temporary config is written, and
      the visitor code too when it is non-empty; on failure neither is. */
  function RegisterTmpStep(w: World, reply: Outcome<CloudReply>): (r: Step<(bool, Msg)>)
    ensures r.world.procs == w.procs && r.world.handle == w.handle
    ensures var files := WithTemplate(w.files, RegisterTmpJson, RegisterTmpTemplate);
      r.value.0 <==> (RegisterTmpJson in files && LoadJson(files, RegisterTmpJson).Ok? &&
                      reply.Ok? && NonEmpty(reply.value.config))
    ensures var files := WithTemplate(w.files, RegisterTmpJson, RegisterTmpTemplate);
      r.value.0 ==>
        var written := files[TmpToml := Text(reply.value.config.value)];
        r.world.files == if NonEmpty(reply.value.code) then written[VisitorCodeFile := Text(reply.value.code.value)] else written
    ensures r.value.0 ==> r.value.1 == Plain(if NonEmpty(reply.value.code) then reply.value.code.value else "")
    ensures !r.value.0 ==> r.world.files == WithTemplate(w.files, RegisterTmpJson, RegisterTmpTemplate)
  {
    var files := WithTemplate(w.files, RegisterTmpJson, RegisterTmpTemplate);
    var w1 := w.(files := files);
    if RegisterTmpJson !in files then Step(w1, (false, Plain(MissingTmpRules)))
    else match LoadJson(files, RegisterTmpJson)
      case Raise(e) => Step(w1, (false, ExcText(e)))
      case Ok(_) =>
        match reply
        case Raise(e) => Step(w1, (false, ExcText(e)))
        case Ok(answer) =>
          if NonEmpty(answer.config) then
            var files2 := files[TmpToml := Text(answer.config.value)];
            if NonEmpty(answer.code) then
              Step(w1.(files := files2[VisitorCodeFile := Text(answer.code.value)]), (true, Plain(answer.code.value)))
            else Step(w1.(files := files2), (true, Plain("")))
          else
            Step(w1, (false, Plain(if NonEmpty(answer.code) then answer.code.value else TmpConfigFailed)))
  }

  method RegisterTmpProxy(app: App, reply: Outcome<CloudReply>) returns (ok: bool, msg: Msg)
    modifies app
    ensures Step(app.State(), (ok, msg)) == RegisterTmpStep(old(app.State()), reply)
  {
    if RegisterTmpJson !in app.files && RegisterTmpTemplate in app.files {
      app.CopyFile(RegisterTmpTemplate, RegisterTmpJson);
    }
    if RegisterTmpJson !in app.files {
      return false, Plain(MissingTmpRules);
    }
    var proxyList := LoadJson(app.files, RegisterTmpJson);
    if proxyList.Raise? {
      return false, ExcText(proxyList.exc);
    }
    if reply.Raise? {
      return false, ExcText(reply.exc);
    }
    var config, code := reply.value.config, reply.value.code;
    if NonEmpty(config) {
      app.WriteFile(TmpToml, Text(config.value));
      if NonEmpty(code) {
        app.WriteFile(VisitorCodeFile, Text(code.value));
        return true, Plain(code.value);
      }
      return true, Plain("");
    } else {
      return false, Plain(if NonEmpty(code) then code.value else TmpConfigFailed);
    }
  }
}
