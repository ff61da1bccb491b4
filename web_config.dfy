/**
 * web_config.py: the older, self-contained configuration service. It keeps
 * its files under /etc/frpc, drives the main tunnel through the service's
 * scripts and `systemctl`, and shares the temporary-tunnel supervisor of
 * frpc_service.py except for two details (no `shutil.which` fallback, and
 * cleanup also deletes the log), which `LegacyTmp` records.
 *
 * `save_configs` is the reconciliation policy that compares the normalised
 * old rules with the processed new ones and restarts only on a change.
 */
module WebConfig {
  import opened PyJson
  import opened Utils
  import opened Host
  import opened FrpcService
  import WebRoutes

  // ============================================================ paths

  const LegacyServiceDir: string := "/etc/frpc"
  /** SCRIPT_DIR, the `frpc` directory under the installation's base. */
  const LegacyScriptDir: string := "base/frpc"
  const LegacyToml: string := "/etc/frpc/frpc.toml"
  const LegacyLog: string := "/etc/frpc/frpc.log"
  const LegacyBinary: string := "/usr/local/bin/frpc"
  const LegacyRegisterJson: string := "/etc/frpc/register_proxy.json"
  const LegacyRegisterTmpJson: string := "/etc/frpc/register_proxy_tmp.json"
  const LegacyFlagFile: string := "/etc/frpc/remote_assistance"
  const LegacyVisitorFile: string := "/etc/frpc/visitor_code"
  const LegacyDefaultMain: string := "base/frpc/conf/register_proxy.json"
  const LegacyDefaultTmp: string := "base/frpc/conf/register_proxy_tmp.json"
  const StopScript: string := "base/frpc/stop.sh"

  const LegacyTmp: TmpLayout := TmpLayout(
    "/etc/frpc/frpc_tmp.toml", "/etc/frpc/bin/frpc", "/etc/frpc/frpc_tmp.log",
    "/etc/frpc/frpc_tmp.pid", LegacyVisitorFile, false, true)

  /** The outcome of a bash script: exit status, output, and the files the
      script wrote (its other effects are outside the model). */
  datatype ScriptRun = ScriptRun(returncode: int, stdout: string, stderr: string, written: map<string, File>)

  /** The answers of the outside world to one `save_configs` request. */
  datatype LegacyOracles = LegacyOracles(
    active: bool,              // `systemctl is-active --quiet frpc` exits with 0
    stopRun: ScriptRun,        // `bash stop.sh`
    tmpRun: ScriptRun,         // `register_tmp_frpc_proxy` of common.sh
    mainSpawn: Option<Pid>,    // pid of the main Popen; None when it raised
    tmpSpawn: Option<Pid>,     // pid of the temporary Popen; None when it raised
    tmpSurvivors: set<Pid>)    // processes that outlive the SIGTERM of `kill` and `pkill`

  // ============================================================ allocator copy

  /** The copy of `generate_bind_port` without the try: `int()` errors
      propagate. */
  function LegacyGenerateBindPort(localPort: Json, prefix: nat): (r: Outcome<Option<int>>)
    ensures PyInt(localPort).Raise? ==> r == Raise(PyInt(localPort).exc)
  {
    match PyInt(localPort)
    case Ok(p) => BindPortOf(p, prefix)
    case Raise(e) => Raise(e)
  }

  /** The copy agrees with the utils.py allocator whenever `int()` accepts
      the port, and raises where that one asks for a random port. */
  lemma LegacyGenerateBindPortAgrees(v: Json, prefix: nat)
    ensures PyInt(v).Ok? ==> LegacyGenerateBindPort(v, prefix) == GenerateBindPort(v, prefix)
    ensures PyInt(v) == Raise(ValueError) ==>
      LegacyGenerateBindPort(v, prefix) == Raise(ValueError) && GenerateBindPort(v, prefix) == Ok(None)
    ensures PyInt(v).Ok? && 0 <= PyInt(v).value < 10000 ==>
      LegacyGenerateBindPort(v, prefix) == Ok(Some(prefix * 10000 + PyInt(v).value))
  {
    GenerateBindPortCases(v, prefix);
  }

  /** The copy of `get_link_value`: plain `local_port != 22`, with no `int()`. */
  function LegacyLinkValue(localPort: Json): bool
  {
    localPort != JInt(22)
  }

  /** On integers the two link rules agree; on the text "22" they do not. */
  lemma LinkRulesCompared(n: int)
    ensures GetLinkValue(JInt(n)) == Ok(LegacyLinkValue(JInt(n)))
    ensures LegacyLinkValue(JStr("22")) && GetLinkValue(JStr("22")) == Ok(false)
  {
    assert ParseInt("22") == Some(22) by {
      assert AllDigits("22");
      ParseIntOfDigits("22");
      assert DecValue("22") == 22 by {
        assert "22"[..1] == "2";
      }
    }
  }

  // ============================================================ stored files

  /** `load_config(config_file, default_file)`: copy the default when the
      file is missing; a file that cannot be loaded reads as []. The value is
      the loaded JSON and the new file map. */
  function LoadConfig(files: map<string, File>, target: string, default: string): (r: (Json, map<string, File>))
    ensures r.1 == WithTemplate(files, target, default)
    ensures target !in r.1 ==> r.0 == JArr([])
    ensures target in r.1 ==> r.0 == (if r.1[target].Doc? then r.1[target].doc else JArr([]))
  {
    var f := WithTemplate(files, target, default);
    if target !in f then (JArr([]), f)
    else match LoadJson(f, target)
      case Ok(v) => (v, f)
      case Raise(_) => (JArr([]), f)
  }

  /** A saved configuration loads back unchanged. */
  lemma LoadConfigAfterSave(files: map<string, File>, target: string, default: string, d: Json)
    ensures LoadConfig(files[target := Doc(d)], target, default) == (d, files[target := Doc(d)])
  {
  }

  /** `load_remote_assistance()`: the stripped, lower-cased text is "true". */
  function LoadRemoteAssistance(files: map<string, File>): bool
  {
    match ReadText(files, LegacyFlagFile)
    case Ok(t) => Lower(Strip(t)) == "true"
    case Raise(_) => false
  }

  /** `save_remote_assistance(value)`. */
  function SaveRemoteAssistance(files: map<string, File>, v: Json): (r: map<string, File>)
    ensures LegacyFlagFile in r && r[LegacyFlagFile].Text?
    ensures forall q :: q != LegacyFlagFile ==> (q in r <==> q in files) && (q in r ==> r[q] == files[q])
  {
    files[LegacyFlagFile := Text(if Truthy(v) then "true" else "false")]
  }

  /** A save followed by a load gives the truthiness saved; a missing file
      reads as off. */
  lemma RemoteAssistanceRoundTrip(files: map<string, File>, v: Json)
    ensures LoadRemoteAssistance(SaveRemoteAssistance(files, v)) == Truthy(v)
    ensures LegacyFlagFile !in files ==> !LoadRemoteAssistance(files)
  {
    var saved := SaveRemoteAssistance(files, v);
    if Truthy(v) {
      assert saved[LegacyFlagFile] == Text("true");
      StripNoEdgeSpace("true");
      assert Lower("true") == "true";
    } else {
      assert saved[LegacyFlagFile] == Text("false");
      StripNoEdgeSpace("false");
      assert Lower("false")[0] == 'f';
    }
  }

  /** `load_visitor_code()`: the stripped text, or "" without a file. */
  function LoadVisitorCode(files: map<string, File>): (r: Outcome<string>)
    ensures LegacyVisitorFile !in files ==> r == Ok("")
  {
    if LegacyVisitorFile !in files then Ok("")
    else match ReadText(files, LegacyVisitorFile)
      case Ok(t) => Ok(Strip(t))
      case Raise(e) => Raise(e)
  }

  /** `save_visitor_code(code)`: write a non-empty code, delete the file for
      an empty one. */
  function SaveVisitorCode(files: map<string, File>, code: string): (r: map<string, File>)
    ensures LegacyVisitorFile in r <==> code != ""
    ensures forall q :: q != LegacyVisitorFile ==> (q in r <==> q in files) && (q in r ==> r[q] == files[q])
  {
    if code != "" then files[LegacyVisitorFile := Text(code)] else RemoveIfExists(files, LegacyVisitorFile)
  }

  /** Saving a code and loading it back gives the code without surrounding
      white space; saving "" makes the load give "". */
  lemma VisitorCodeRoundTrip(files: map<string, File>, code: string)
    ensures LoadVisitorCode(SaveVisitorCode(files, code)) == Ok(Strip(code))
  {
  }

  // ============================================================ visitor code

  const Marker: string := "Visitor Code:"

  predicate OccursAt(s: string, m: string, j: int)
  {
    0 <= j && j + |m| <= |s| && s[j..j + |m|] == m
  }

  /** The first occurrence of m in s. */
  function Find(s: string, m: string): (r: Option<nat>)
    ensures r.Some? ==> OccursAt(s, m, r.value) && forall j :: 0 <= j < r.value ==> !OccursAt(s, m, j)
    ensures r.None? ==> forall j :: 0 <= j <= |s| ==> !OccursAt(s, m, j)
  {
    FindFrom(s, m, 0)
  }

  function FindFrom(s: string, m: string, i: nat): (r: Option<nat>)
    requires forall j :: 0 <= j < i ==> !OccursAt(s, m, j)
    ensures r.Some? ==> OccursAt(s, m, r.value) && forall j :: 0 <= j < r.value ==> !OccursAt(s, m, j)
    ensures r.None? ==> forall j :: 0 <= j <= |s| ==> !OccursAt(s, m, j)
    decreases |s| + 1 - i
  {
    if i > |s| then None
    else if OccursAt(s, m, i) then Some(i)
    else FindFrom(s, m, i + 1)
  }

  /** `line.split(m)[1]`: the text after the first occurrence of m, up to the
      next one. */
  function AfterFirst(line: string, m: string): string
    requires Find(line, m).Some?
  {
    var rest := line[Find(line, m).value + |m|..];
    match Find(rest, m)
    case Some(j) => rest[..j]
    case None => rest
  }

  /** The code one output line carries, "" when it has none. */
  function CodeOnLine(line: string): string
  {
    if Find(line, Marker).Some? then Strip(AfterFirst(line, Marker)) else ""
  }

  /** The visitor code of the first line that carries a non-empty one. */
  function FirstCode(lines: seq<string>): string
  {
    if lines == [] then ""
    else if CodeOnLine(lines[0]) != "" then CodeOnLine(lines[0])
    else FirstCode(lines[1..])
  }

  /** No line before line k carries a code. */
  predicate NoCodeBefore(lines: seq<string>, k: nat)
    requires k <= |lines|
  {
    forall j :: 0 <= j < k ==> CodeOnLine(lines[j]) == ""
  }

  lemma NoCodeBeforeShift(lines: seq<string>, k: nat)
    requires 1 <= k <= |lines| && CodeOnLine(lines[0]) == ""
    ensures NoCodeBefore(lines, k) <==> NoCodeBefore(lines[1..], k - 1)
  {
    assert forall j :: 1 <= j < k ==> lines[j] == lines[1..][j - 1];
  }

  /** The result is "" when no line has a non-empty code, and otherwise the
      code of the first line that has one. */
  lemma {:induction false} FirstCodeIsFirst(lines: seq<string>)
    ensures FirstCode(lines) == "" <==> NoCodeBefore(lines, |lines|)
    ensures forall k :: 0 <= k < |lines| && CodeOnLine(lines[k]) != "" && NoCodeBefore(lines, k) ==>
      FirstCode(lines) == CodeOnLine(lines[k])
  {
    if lines != [] {
      var tail := lines[1..];
      FirstCodeIsFirst(tail);
      if CodeOnLine(lines[0]) == "" {
        NoCodeBeforeShift(lines, |lines|);
        forall k | 0 <= k < |lines| && CodeOnLine(lines[k]) != "" && NoCodeBefore(lines, k)
          ensures FirstCode(lines) == CodeOnLine(lines[k])
        {
          NoCodeBeforeShift(lines, k);
          assert lines[k] == tail[k - 1];
        }
      } else {
        assert forall k :: 0 < k <= |lines| ==> !NoCodeBefore(lines, k);
      }
    }
  }

  /** The extraction loop of `register_tmp_proxy`, which stops at the first
      line with a non-empty code. */
  method ExtractVisitorCode(stdout: string) returns (code: string)
    ensures code == FirstCode(Split(stdout, '\n'))
  {
    var lines := Split(stdout, '\n');
    code := "";
    var i := 0;
    while i < |lines|
      invariant 0 <= i <= |lines|
      invariant FirstCode(lines[i..]) == FirstCode(lines)
      invariant code == ""
    {
      FirstCodeFrom(lines, i);
      if Find(lines[i], Marker).Some? {
        var c := Strip(AfterFirst(lines[i], Marker));
        if c != "" {
          code := c;
          break;
        }
      }
      i := i + 1;
    }
  }

  lemma FirstCodeFrom(lines: seq<string>, i: nat)
    requires i < |lines|
    ensures FirstCode(lines[i..]) ==
      if CodeOnLine(lines[i]) != "" then CodeOnLine(lines[i]) else FirstCode(lines[i + 1..])
  {
    assert lines[i..][1..] == lines[i + 1..];
  }

  /** `register_tmp_proxy()` of this copy: run the script; on exit status 0
      take the code from its output, else from the stored file, and store a
      non-empty one; otherwise return the script's error text. */
  function LegacyRegisterTmpStep(w: World, run: ScriptRun): (r: Step<(bool, Msg)>)
    ensures r.world.procs == w.procs && r.world.handle == w.handle
    ensures r.value.0 <==> (run.returncode == 0 &&
      (FirstCode(Split(run.stdout, '\n')) != "" || LoadVisitorCode(w.files + run.written).Ok?))
    ensures run.returncode != 0 ==>
      r == Step(w.(files := w.files + run.written), (false, Plain(if run.stderr != "" then run.stderr else run.stdout)))
  {
    var w1 := w.(files := w.files + run.written);
    if run.returncode != 0 then
      Step(w1, (false, Plain(if run.stderr != "" then run.stderr else run.stdout)))
    else
      var fromOutput := FirstCode(Split(run.stdout, '\n'));
      var code := if fromOutput != "" then Ok(fromOutput) else LoadVisitorCode(w1.files);
      match code
      case Raise(e) => Step(w1, (false, ExcText(e)))
      case Ok(c) =>
        if c != "" then Step(w1.(files := SaveVisitorCode(w1.files, c)), (true, Plain(c)))
        else Step(w1, (true, Plain("")))
  }

  method LegacyRegisterTmpProxy(app: App, run: ScriptRun) returns (ok: bool, msg: Msg)
    modifies app
    ensures Step(app.State(), (ok, msg)) == LegacyRegisterTmpStep(old(app.State()), run)
  {
    app.WriteAll(run.written);
    if run.returncode != 0 {
      return false, Plain(if run.stderr != "" then run.stderr else run.stdout);
    }
    var code := ExtractVisitorCode(run.stdout);
    if code == "" {
      var stored := LoadVisitorCode(app.files);
      if stored.Raise? {
        return false, ExcText(stored.exc);
      }
      code := stored.value;
    }
    if code != "" {
      app.WriteFile(LegacyVisitorFile, Text(code));
      return true, Plain(code);
    }
    return true, Plain("");
  }

  /** A successful registration that found a code leaves that code stored,
      so a later load returns it. */
  lemma RegisteredCodeIsStored(w: World, run: ScriptRun)
    requires LegacyRegisterTmpStep(w, run).value.0
    requires LegacyRegisterTmpStep(w, run).value.1 != Plain("")
    ensures var r := LegacyRegisterTmpStep(w, run);
      LegacyVisitorFile in r.world.files && r.world.files[LegacyVisitorFile] == Text(r.value.1.text)
  {
  }

  // ============================================================ main tunnel

  /** `stop_frpc()` of this copy: run stop.sh; True iff it exists and exits
      with status 0. */
  function LegacyStopStep(w: World, run: ScriptRun): (r: Step<bool>)
    ensures r.value <==> StopScript in w.files && run.returncode == 0
    ensures r.world.procs == w.procs && r.world.handle == w.handle
  {
    if StopScript !in w.files then Step(w, false)
    else Step(w.(files := w.files + run.written), run.returncode == 0)
  }

  method LegacyStopFrpc(app: App, run: ScriptRun) returns (ok: bool)
    modifies app
    ensures Step(app.State(), ok) == LegacyStopStep(old(app.State()), run)
  {
    if StopScript !in app.files {
      return false;
    }
    app.WriteAll(run.written);
    ok := run.returncode == 0;
  }

  /** `start_frpc()` of this copy: a single binary path, no search. */
  function LegacyStartStep(w: World, spawn: Option<Pid>): (r: Step<bool>)
    ensures r.value <==> LegacyToml in w.files && LegacyBinary in w.files && spawn.Some?
    ensures r.value ==> r.world.procs == w.procs[spawn.value := Proc(LegacyBinary, LegacyToml)] &&
                        r.world.handle == spawn
    ensures !r.value ==> r.world.procs == w.procs && r.world.handle == w.handle
  {
    if LegacyToml !in w.files || LegacyBinary !in w.files then Step(w, false)
    else
      var files := Touch(w.files, LegacyLog);
      match spawn
      case None => Step(w.(files := files), false)
      case Some(pid) => Step(World(files, w.procs[pid := Proc(LegacyBinary, LegacyToml)], Some(pid)), true)
  }

  method LegacyStartFrpc(app: App, spawn: Option<Pid>) returns (ok: bool)
    modifies app
    ensures Step(app.State(), ok) == LegacyStartStep(old(app.State()), spawn)
  {
    if LegacyToml !in app.files || LegacyBinary !in app.files {
      return false;
    }
    app.OpenForAppend(LegacyLog);
    if spawn.None? {
      return false;
    }
    app.Spawn(spawn.value, Proc(LegacyBinary, LegacyToml));
    app.SetHandle(spawn);
    ok := true;
  }

  /** `restart_frpc()` of this copy: stop, then start; False as soon as
      either fails. */
  function LegacyRestartStep(w: World, lo: LegacyOracles): (r: Step<bool>)
    ensures r.value <==> LegacyStopStep(w, lo.stopRun).value && LegacyStartStep(LegacyStopStep(w, lo.stopRun).world, lo.mainSpawn).value
    ensures !LegacyStopStep(w, lo.stopRun).value ==> r.world.procs == w.procs && r.world.handle == w.handle
  {
    var s := LegacyStopStep(w, lo.stopRun);
    if !s.value then Step(s.world, false)
    else
      var t := LegacyStartStep(s.world, lo.mainSpawn);
      Step(t.world, t.value)
  }

  method LegacyRestartFrpc(app: App, lo: LegacyOracles) returns (ok: bool)
    modifies app
    ensures Step(app.State(), ok) == LegacyRestartStep(old(app.State()), lo)
  {
    var stopped := LegacyStopFrpc(app, lo.stopRun);
    if !stopped {
      return false;
    }
    ok := LegacyStartFrpc(app, lo.mainSpawn);
  }

  // ============================================================ validation

  /** The four checks of `save_configs`, in order: the rejection message, or
      None when the request passes; `len()` of a value without one raises. */
  function Validate(main: Json, tmp: Json, ra: Json): (r: Outcome<Option<string>>)
  {
    match Len(main)
    case Raise(e) => Raise(e)
    case Ok(nMain) =>
      if nMain == 0 then Ok(Some("主配置至少需要有一个服务"))
      else if Truthy(ra) && Len(tmp).Raise? then Raise(Len(tmp).exc)
      else if Truthy(ra) && Len(tmp).value == 0 then Ok(Some("启用远程协助时，临时配置至少需要有一个服务"))
      else if nMain > 10 then Ok(Some("主配置最多只能添加10个服务"))
      else if Truthy(ra) && Len(tmp).value > 10 then Ok(Some("临时配置最多只能添加10个服务"))
      else Ok(None)
  }

  /** A request passes iff it has 1 to 10 main rules and, with remote
      assistance on, 1 to 10 temporary rules; the temporary list is not
      looked at when remote assistance is off. */
  lemma ValidateAccepts(main: Json, tmp: Json, ra: Json)
    ensures Validate(main, tmp, ra) == Ok(None) <==>
      && Len(main).Ok? && 1 <= Len(main).value <= 10
      && (Truthy(ra) ==> Len(tmp).Ok? && 1 <= Len(tmp).value <= 10)
    ensures !Truthy(ra) ==> Validate(main, tmp, ra) == Validate(main, JNull, ra)
  {
  }

  // ============================================================ rule processing

  /** A stored rule: exactly the keys serviceName, localPort, bindPort and
      link, in that order. */
  predicate RuleShape(r: Json)
  {
    && r.JObj? && |r.fields| == 4
    && r.fields[0].0 == "serviceName" && r.fields[1].0 == "localPort"
    && r.fields[2].0 == "bindPort" && r.fields[3].0 == "link"
  }

  /** A stored rule whose bindPort the normalisation keeps: truthy, or 0. */
  predicate StableBindPort(r: Json)
  {
    RuleShape(r) && (Truthy(r.fields[2].1) || r.fields[2].1 == JInt(0))
  }

  /** One submitted rule as `save_configs` stores it: `int()` of localPort,
      the generated bindPort (or the submitted one when the allocator gives
      None), and the link flag. */
  function ProcessRule(item: Json, prefix: nat): (r: Outcome<Json>)
    ensures r.Ok? ==> item.JObj? && RuleShape(r.value)
  {
    match Get(item, "serviceName", JStr(""))
    case Raise(e) => Raise(e)
    case Ok(name) =>
      match PyInt(Get(item, "localPort", JInt(0)).value)
      case Raise(e) => Raise(e)
      case Ok(lp) =>
        match LegacyGenerateBindPort(JInt(lp), prefix)
        case Raise(e) => Raise(e)
        case Ok(g) =>
          var bp := if g.Some? && g.value != 0 then JInt(g.value) else Get(item, "bindPort", JInt(0)).value;
          Ok(JObj([("serviceName", name), ("localPort", JInt(lp)), ("bindPort", bp), ("link", JBool(lp != 22))]))
  }

  /** The fields as the rule rules promise: a local port in 0..9999 gets
      prefix * 10000 + port, a larger one keeps the submitted bindPort, a
      negative one makes the request fail; link is false only for 22. */
  lemma ProcessRuleCases(item: Json, prefix: nat)
    requires prefix > 0 && item.JObj? && PyInt(Get(item, "localPort", JInt(0)).value).Ok?
    ensures SubmittedPort(item) < 0 ==> ProcessRule(item, prefix) == Raise(ValueError)
    ensures 0 <= SubmittedPort(item) < 10000 ==>
      (ProcessRule(item, prefix).Ok? &&
       ProcessRule(item, prefix).value.fields[2] == ("bindPort", JInt(prefix * 10000 + SubmittedPort(item))))
    ensures SubmittedPort(item) >= 10000 ==>
      (ProcessRule(item, prefix).Ok? &&
       ProcessRule(item, prefix).value.fields[2] == ("bindPort", Get(item, "bindPort", JInt(0)).value))
    ensures ProcessRule(item, prefix).Ok? ==>
      ProcessRule(item, prefix).value.fields[3] == ("link", JBool(SubmittedPort(item) != 22))
  {
    var lp := SubmittedPort(item);
    BindPortOfCases(lp, prefix);
    assert Get(item, "serviceName", JStr("")).Ok?;
    assert LegacyGenerateBindPort(JInt(lp), prefix) == BindPortOf(lp, prefix);
  }

  /** `int(item.get('localPort', 0))` of a rule `int()` accepts. */
  function SubmittedPort(item: Json): int
    requires item.JObj? && PyInt(Get(item, "localPort", JInt(0)).value).Ok?
  {
    PyInt(Get(item, "localPort", JInt(0)).value).value
  }

  /** A loop `for item in items: out.append(f(item))`: the list of results,
      or the first exception raised, which ends the loop. */
  function MapRules(f: Json -> Outcome<Json>, items: seq<Json>): (r: Outcome<seq<Json>>)
    ensures r.Ok? ==> |r.value| == |items|
  {
    if items == [] then Ok([])
    else match MapRules(f, items[..|items| - 1])
      case Raise(e) => Raise(e)
      case Ok(done) =>
        match f(items[|items| - 1])
        case Raise(e) => Raise(e)
        case Ok(r) => Ok(done + [r])
  }

  /** One more item: the list grows by its result, or the loop stops with
      its exception. */
  lemma MapRulesSnoc(f: Json -> Outcome<Json>, items: seq<Json>, i: nat, done: seq<Json>)
    requires i < |items| && MapRules(f, items[..i]) == Ok(done)
    ensures MapRules(f, items[..i + 1]) ==
      match f(items[i])
      case Raise(e) => Raise(e)
      case Ok(r) => Ok(done + [r])
  {
    assert items[..i + 1][..i] == items[..i];
  }

  /** An exception part way through is the exception of the whole loop. */
  lemma {:induction false} MapRulesRaise(f: Json -> Outcome<Json>, items: seq<Json>, n: nat)
    requires n <= |items| && MapRules(f, items[..n]).Raise?
    ensures MapRules(f, items) == MapRules(f, items[..n])
    decreases |items| - n
  {
    if n < |items| {
      assert items[..n + 1][..n] == items[..n];
      MapRulesRaise(f, items, n + 1);
    } else {
      assert items[..n] == items;
    }
  }

  /** A loop that completes gives one result per item, in order. */
  lemma {:induction false} MapRulesPointwise(f: Json -> Outcome<Json>, items: seq<Json>)
    requires MapRules(f, items).Ok?
    ensures |MapRules(f, items).value| == |items|
    ensures forall k :: 0 <= k < |items| ==> f(items[k]) == Ok(MapRules(f, items).value[k])
  {
    if items != [] {
      var init := items[..|items| - 1];
      MapRulesPointwise(f, init);
      assert forall k :: 0 <= k < |init| ==> init[k] == items[k];
    }
  }

  function Processor(prefix: nat): Json -> Outcome<Json>
  {
    item => ProcessRule(item, prefix)
  }

  /** `processed_*_config`, or the exception that ends the request. */
  function ProcessRules(items: seq<Json>, prefix: nat): Outcome<seq<Json>>
  {
    MapRules(Processor(prefix), items)
  }

  /** Processing keeps one rule per submitted rule, in order. */
  lemma ProcessRulesPointwise(items: seq<Json>, prefix: nat)
    requires ProcessRules(items, prefix).Ok?
    ensures |ProcessRules(items, prefix).value| == |items|
    ensures forall k :: 0 <= k < |items| ==> ProcessRule(items[k], prefix) == Ok(ProcessRules(items, prefix).value[k])
  {
    MapRulesPointwise(Processor(prefix), items);
  }

  /** The processing loops of `save_configs`. */
  method ProcessRuleList(items: seq<Json>, prefix: nat) returns (r: Outcome<seq<Json>>)
    ensures r == ProcessRules(items, prefix)
  {
    var processed: seq<Json> := [];
    var i := 0;
    while i < |items|
      invariant 0 <= i <= |items|
      invariant MapRules(Processor(prefix), items[..i]) == Ok(processed)
    {
      var rule := ProcessRule(items[i], prefix);
      MapRulesSnoc(Processor(prefix), items, i, processed);
      if rule.Raise? {
        MapRulesRaise(Processor(prefix), items, i + 1);
        return Raise(rule.exc);
      }
      processed := processed + [rule.value];
      i := i + 1;
    }
    assert items[..i] == items;
    r := Ok(processed);
  }

  /** One stored rule brought to the processed shape: a falsy bindPort is
      regenerated with prefix 3 (0 when the allocator gives None), a missing
      or null link is derived from the port. */
  function NormalizeOldRule(item: Json): (r: Outcome<Json>)
    ensures r.Ok? ==> item.JObj?
    ensures !item.JObj? ==> r == Raise(AttributeError)
  {
    match Get(item, "localPort", JInt(0))
    case Raise(e) => Raise(e)
    case Ok(lp) =>
      var bp0 := Get(item, "bindPort", JNull).value;
      var bp := if Truthy(bp0) then Ok(bp0)
                else match LegacyGenerateBindPort(lp, 3)
                  case Raise(e) => Raise(e)
                  case Ok(g) => Ok(if g.Some? then JInt(g.value) else JInt(0));
      match bp
      case Raise(e) => Raise(e)
      case Ok(b) =>
        var link0 := Get(item, "link", JNull).value;
        var link := if link0 == JNull then JBool(LegacyLinkValue(lp)) else link0;
        Ok(JObj([("serviceName", Get(item, "serviceName", JStr("")).value), ("localPort", lp),
                 ("bindPort", if Truthy(b) then b else JInt(0)), ("link", link)]))
  }

  /** What the normalisation makes of one stored dict: it succeeds unless
      the bindPort is falsy and `int()` rejects the localPort or gives a
      negative one; it then keeps the name and the localPort as stored,
      keeps a truthy bindPort and otherwise puts 30000 + port below 10000
      and 0 above, and keeps a link unless it is missing or null, where it
      derives `localPort != 22`. */
  lemma NormalizeOldRuleCases(fs: seq<(string, Json)>, lp: Json, bp0: Json, link0: Json)
    requires Get(JObj(fs), "localPort", JInt(0)) == Ok(lp)
    requires Get(JObj(fs), "bindPort", JNull) == Ok(bp0)
    requires Get(JObj(fs), "link", JNull) == Ok(link0)
    ensures NormalizeOldRule(JObj(fs)).Ok? <==> Truthy(bp0) || (PyInt(lp).Ok? && PyInt(lp).value >= 0)
    ensures NormalizeOldRule(JObj(fs)).Raise? ==>
      NormalizeOldRule(JObj(fs)) == Raise(if PyInt(lp).Raise? then PyInt(lp).exc else ValueError)
    ensures NormalizeOldRule(JObj(fs)).Ok? ==>
      var r := NormalizeOldRule(JObj(fs)).value;
      && RuleShape(r)
      && r.fields[0].1 == Get(JObj(fs), "serviceName", JStr("")).value
      && r.fields[1].1 == lp
      && r.fields[2].1 == (if Truthy(bp0) then bp0
                           else if PyInt(lp).value < 10000 then JInt(30000 + PyInt(lp).value)
                           else JInt(0))
      && r.fields[3].1 == (if link0 == JNull then JBool(lp != JInt(22)) else link0)
  {
    if !Truthy(bp0) && PyInt(lp).Ok? {
      BindPortOfCases(PyInt(lp).value, 3);
    }
  }

  /** The normalisation loop over the stored rules. */
  function NormalizeRules(items: seq<Json>): Outcome<seq<Json>>
  {
    MapRules(NormalizeOldRule, items)
  }

  method NormalizeRuleList(items: seq<Json>) returns (r: Outcome<seq<Json>>)
    ensures r == NormalizeRules(items)
  {
    var normalized: seq<Json> := [];
    var i := 0;
    while i < |items|
      invariant 0 <= i <= |items|
      invariant MapRules(NormalizeOldRule, items[..i]) == Ok(normalized)
    {
      var rule := NormalizeOldRule(items[i]);
      MapRulesSnoc(NormalizeOldRule, items, i, normalized);
      if rule.Raise? {
        MapRulesRaise(NormalizeOldRule, items, i + 1);
        return Raise(rule.exc);
      }
      normalized := normalized + [rule.value];
      i := i + 1;
    }
    assert items[..i] == items;
    r := Ok(normalized);
  }

  /** The four fields of a stored rule, as `get` sees them. */
  lemma RuleLookups(p: Json)
    requires RuleShape(p)
    ensures Lookup(p.fields, "serviceName") == Some(p.fields[0].1)
    ensures Lookup(p.fields, "localPort") == Some(p.fields[1].1)
    ensures Lookup(p.fields, "bindPort") == Some(p.fields[2].1)
    ensures Lookup(p.fields, "link") == Some(p.fields[3].1)
  {
    LookupFirst(p.fields, 0);
    LookupFirst(p.fields, 1);
    LookupFirst(p.fields, 2);
    LookupFirst(p.fields, 3);
  }

  /** A rule processed with prefix 3 whose bindPort is truthy or 0 is left
      as it is by the normalisation. */
  lemma NormalizeProcessedRule(item: Json)
    requires ProcessRule(item, 3).Ok?
    requires StableBindPort(ProcessRule(item, 3).value)
    ensures NormalizeOldRule(ProcessRule(item, 3).value) == ProcessRule(item, 3)
  {
    var p := ProcessRule(item, 3).value;
    var lp := SubmittedPort(item);
    BindPortOfCases(lp, 3);
    assert p == JObj([("serviceName", p.fields[0].1), ("localPort", JInt(lp)),
                      ("bindPort", p.fields[2].1), ("link", JBool(lp != 22))]);
    NormalizeStoredRule(p.fields[0].1, lp, p.fields[2].1);
  }

  /** A rule in the stored shape with a non-negative port, and a bindPort
      that is truthy or 0 beside a port of 10000 or more, is its own
      normal form. */
  lemma NormalizeStoredRule(name: Json, lp: int, bp: Json)
    requires lp >= 0 && (Truthy(bp) || (bp == JInt(0) && lp >= 10000))
    ensures var p := JObj([("serviceName", name), ("localPort", JInt(lp)), ("bindPort", bp), ("link", JBool(lp != 22))]);
      NormalizeOldRule(p) == Ok(p)
  {
    var p := JObj([("serviceName", name), ("localPort", JInt(lp)), ("bindPort", bp), ("link", JBool(lp != 22))]);
    RuleLookups(p);
    assert Get(p, "localPort", JInt(0)) == Ok(JInt(lp));
    assert Get(p, "bindPort", JNull) == Ok(bp);
    assert Get(p, "link", JNull) == Ok(JBool(lp != 22));
    assert Get(p, "serviceName", JStr("")) == Ok(name);
    if !Truthy(bp) {
      BindPortOfCases(lp, 3);
      assert LegacyGenerateBindPort(JInt(lp), 3) == Ok(None);
    }
  }

  /** Re-submitting the stored rules normalises to exactly what is
      processed again, so the main tunnel is not restarted. */
  lemma {:induction false} ResubmissionIsUnchanged(items: seq<Json>)
    requires ProcessRules(items, 3).Ok?
    requires forall r :: r in ProcessRules(items, 3).value ==> StableBindPort(r)
    ensures NormalizeRules(ProcessRules(items, 3).value) == ProcessRules(items, 3)
  {
    var stored := ProcessRules(items, 3).value;
    MapRulesPointwise(Processor(3), items);
    forall k | 0 <= k < |stored|
      ensures NormalizeOldRule(stored[k]) == Ok(stored[k])
    {
      NormalizeProcessedRule(items[k]);
    }
    MapRulesFixed(NormalizeOldRule, stored);
  }

  /** A loop whose every item is its own result gives the list back. */
  lemma {:induction false} MapRulesFixed(f: Json -> Outcome<Json>, items: seq<Json>)
    requires forall k :: 0 <= k < |items| ==> f(items[k]) == Ok(items[k])
    ensures MapRules(f, items) == Ok(items)
  {
    if items != [] {
      var init := items[..|items| - 1];
      assert forall k :: 0 <= k < |init| ==> init[k] == items[k];
      MapRulesFixed(f, init);
      assert init + [items[|items| - 1]] == items;
    }
  }

  // ============================================================ decisions

  datatype MainAction = RestartMain | StartMain | LeaveMain

  /** Lines 1044-1064: restart a running tunnel, start a stopped one, and
      leave it alone when the rules did not change. */
  function LegacyMainAction(changed: bool, running: bool): (a: MainAction)
    ensures a == LeaveMain <==> !changed
    ensures a == RestartMain <==> changed && running
  {
    if !changed then LeaveMain else if running then RestartMain else StartMain
  }

  /** Lines 1067-1098: `remote_assistance != old` and `remote_assistance ==
      old` are Python comparisons between the submitted value and a bool. */
  function LegacyTmpAction(ra: Json, wasOn: bool, tmpChanged: bool): (a: TmpAction)
    ensures a == Enable ==> Truthy(ra) && !EqualsBool(ra, wasOn)
    ensures a == Disable ==> !Truthy(ra) && !EqualsBool(ra, wasOn)
    ensures a == Refresh ==> Truthy(ra) && EqualsBool(ra, wasOn) && tmpChanged
  {
    if !EqualsBool(ra, wasOn) then (if Truthy(ra) then Enable else Disable)
    else if Truthy(ra) && EqualsBool(ra, wasOn) && tmpChanged then Refresh
    else Keep
  }

  /** With a boolean flag: off to on enables, on to off disables, on to on
      refreshes only on a changed temporary list, off to off does nothing. */
  lemma LegacyTmpActionOnBools(b: bool, wasOn: bool, tmpChanged: bool)
    ensures LegacyTmpAction(JBool(b), wasOn, tmpChanged) ==
      if b && !wasOn then Enable
      else if !b && wasOn then Disable
      else if b && tmpChanged then Refresh
      else Keep
  {
  }

  /** The two handlers differ only while remote assistance stays on: the
      newer one refreshes on any non-empty temporary list, this one only on
      a changed list. */
  lemma TmpPoliciesCompared(b: bool, wasOn: bool, tmpRules: seq<Json>, tmpChanged: bool)
    ensures !(b && wasOn) ==>
      LegacyTmpAction(JBool(b), wasOn, tmpChanged) == WebRoutes.RoutesTmpAction(JBool(b), wasOn, tmpRules)
    ensures b && wasOn ==>
      (LegacyTmpAction(JBool(b), wasOn, tmpChanged) == Refresh <==> tmpChanged) &&
      (WebRoutes.RoutesTmpAction(JBool(b), wasOn, tmpRules) == Refresh <==> tmpRules != [])
  {
    LegacyTmpActionOnBools(b, wasOn, tmpChanged);
    WebRoutes.RoutesTmpActionOnBools(b, wasOn, tmpRules);
  }

  // ============================================================ save_configs

  /** The JSON reply: HTTP status, success, message and visitor code. */
  datatype LegacyResponse = LegacyResponse(status: int, success: bool, message: seq<Msg>, visitorCode: Option<Msg>)

  function Reply(success: bool, message: seq<Msg>): LegacyResponse
  {
    LegacyResponse(200, success, message, None)
  }

  const SavedPrefix: string := "配置保存成功"

  /** Carry out the main action; the value is `restart_message`. */
  function ApplyMainStep(w: World, a: MainAction, lo: LegacyOracles): Step<string>
  {
    match a
    case LeaveMain => Step(w, "")
    case RestartMain =>
      var r := LegacyRestartStep(w, lo);
      Step(r.world, if r.value then "，frpc主服务已重启" else "，但frpc主服务重启失败")
    case StartMain =>
      var r := LegacyStartStep(w, lo.mainSpawn);
      Step(r.world, if r.value then "，frpc主服务已启动" else "，但frpc主服务启动失败")
  }

  method ApplyMain(app: App, a: MainAction, lo: LegacyOracles) returns (restartMessage: string)
    modifies app
    ensures Step(app.State(), restartMessage) == ApplyMainStep(old(app.State()), a, lo)
  {
    match a
    case LeaveMain =>
      restartMessage := "";
    case RestartMain =>
      var ok := LegacyRestartFrpc(app, lo);
      restartMessage := if ok then "，frpc主服务已重启" else "，但frpc主服务重启失败";
    case StartMain =>
      var ok := LegacyStartFrpc(app, lo.mainSpawn);
      restartMessage := if ok then "，frpc主服务已启动" else "，但frpc主服务启动失败";
  }

  /** Carry out the temporary-tunnel action and build the reply. */
  function ApplyLegacyTmpStep(w: World, a: TmpAction, rm: string, lo: LegacyOracles): Step<LegacyResponse>
  {
    var head := SavedPrefix + rm;
    match a
    case Enable =>
      var reg := LegacyRegisterTmpStep(w, lo.tmpRun);
      if !reg.value.0 then Step(reg.world, Reply(false, [Plain(head + "，但临时代理注册失败: "), reg.value.1]))
      else
        var st := StartTmpStep(reg.world, LegacyTmp, None, lo.tmpSpawn);
        if st.value then Step(st.world, LegacyResponse(200, true, [Plain(head + "，临时frpc已启动")], Some(reg.value.1)))
        else Step(st.world, Reply(false, [Plain(head + "，但启动临时frpc失败")]))
    case Disable =>
      Step(CleanupStep(w, LegacyTmp, lo.tmpSurvivors).world, Reply(true, [Plain(head + "，临时frpc已停止并清理")]))
    case Refresh =>
      var reg := LegacyRegisterTmpStep(w, lo.tmpRun);
      if !reg.value.0 then Step(reg.world, Reply(false, [Plain(head + "，但临时代理注册失败: "), reg.value.1]))
      else
        var st := StartTmpStep(StopTmpStep(reg.world, LegacyTmp, lo.tmpSurvivors).world, LegacyTmp, None, lo.tmpSpawn);
        if st.value then Step(st.world, LegacyResponse(200, true, [Plain(head + "，临时frpc已重启")], Some(reg.value.1)))
        else Step(st.world, Reply(false, [Plain(head + "，但重启临时frpc失败")]))
    case Keep => Step(w, Reply(true, [Plain(head)]))
  }

  /** The temporary client is started or stopped only after the script
      registered it: a failed registration answers failure, with no
      process started or stopped, and no temporary action touches the main
      tunnel's handle. */
  lemma LegacyTmpStartsOnlyAfterRegistration(w: World, a: TmpAction, rm: string, lo: LegacyOracles)
    ensures ApplyLegacyTmpStep(w, a, rm, lo).world.handle == w.handle
    ensures (a == Enable || a == Refresh) && !LegacyRegisterTmpStep(w, lo.tmpRun).value.0 ==>
      && ApplyLegacyTmpStep(w, a, rm, lo).world.procs == w.procs
      && !ApplyLegacyTmpStep(w, a, rm, lo).value.success
    ensures (a == Enable || a == Refresh) && ApplyLegacyTmpStep(w, a, rm, lo).value.success ==>
      LegacyRegisterTmpStep(w, lo.tmpRun).value.0 && ApplyLegacyTmpStep(w, a, rm, lo).value.visitorCode.Some?
  {
  }

  method ApplyLegacyTmp(app: App, a: TmpAction, rm: string, lo: LegacyOracles) returns (resp: LegacyResponse)
    modifies app
    ensures Step(app.State(), resp) == ApplyLegacyTmpStep(old(app.State()), a, rm, lo)
  {
    var head := SavedPrefix + rm;
    match a
    case Enable =>
      var ok, result := LegacyRegisterTmpProxy(app, lo.tmpRun);
      if !ok {
        return Reply(false, [Plain(head + "，但临时代理注册失败: "), result]);
      }
      var started := StartTmpFrpc(app, LegacyTmp, None, lo.tmpSpawn);
      resp := if started then LegacyResponse(200, true, [Plain(head + "，临时frpc已启动")], Some(result))
              else Reply(false, [Plain(head + "，但启动临时frpc失败")]);
    case Disable =>
      var _ := CleanupTmpFrpcFiles(app, LegacyTmp, lo.tmpSurvivors);
      resp := Reply(true, [Plain(head + "，临时frpc已停止并清理")]);
    case Refresh =>
      var ok, result := LegacyRegisterTmpProxy(app, lo.tmpRun);
      if !ok {
        return Reply(false, [Plain(head + "，但临时代理注册失败: "), result]);
      }
      var _ := StopTmpFrpc(app, LegacyTmp, lo.tmpSurvivors);
      var started := StartTmpFrpc(app, LegacyTmp, None, lo.tmpSpawn);
      resp := if started then LegacyResponse(200, true, [Plain(head + "，临时frpc已重启")], Some(result))
              else Reply(false, [Plain(head + "，但重启临时frpc失败")]);
    case Keep =>
      resp := Reply(true, [Plain(head)]);
  }

  /** The submitted main and temporary lists processed with prefixes 3
      and 4. */
  function ProcessBoth(main: seq<Json>, tmp: Json): Outcome<(seq<Json>, seq<Json>)>
  {
    match ProcessRules(main, 3)
    case Raise(e) => Raise(e)
    case Ok(pm) =>
      match Iterate(tmp)
      case Raise(e) => Raise(e)
      case Ok(tmpItems) =>
        match ProcessRules(tmpItems, 4)
        case Raise(e) => Raise(e)
        case Ok(pt) => Ok((pm, pt))
  }

  /** The three files `save_configs` writes: both processed lists and the
      flag. */
  function StoreSubmission(files: map<string, File>, pm: seq<Json>, pt: seq<Json>, ra: Json): (r: map<string, File>)
    ensures LegacyRegisterJson in r && r[LegacyRegisterJson] == Doc(JArr(pm))
    ensures LegacyRegisterTmpJson in r && r[LegacyRegisterTmpJson] == Doc(JArr(pt))
    ensures LoadRemoteAssistance(r) == Truthy(ra)
  {
    SaveRemoteAssistance(files[LegacyRegisterJson := Doc(JArr(pm))][LegacyRegisterTmpJson := Doc(JArr(pt))], ra)
  }

  /** Store the processed lists and the flag, then decide on both tunnels
      by comparing against what was stored before. */
  function ReconcileStep(w: World, oldMain: Json, oldTmp: Json, wasOn: bool, pm: seq<Json>, pt: seq<Json>,
                         ra: Json, lo: LegacyOracles): Step<Outcome<LegacyResponse>>
  {
    ActStep(w.(files := StoreSubmission(w.files, pm, pt, ra)), oldMain, oldTmp, wasOn, pm, pt, ra, lo)
  }

  /** Compare the normalised old lists with the new ones and act on the
      main tunnel and the temporary tunnel. */
  function ActStep(w1: World, oldMain: Json, oldTmp: Json, wasOn: bool, pm: seq<Json>, pt: seq<Json>,
                   ra: Json, lo: LegacyOracles): Step<Outcome<LegacyResponse>>
  {
    match Iterate(oldMain)
    case Raise(e) => Step(w1, Raise(e))
    case Ok(oldItems) =>
      match NormalizeRules(oldItems)
      case Raise(e) => Step(w1, Raise(e))
      case Ok(norm) =>
        var changed := !CompareJsonContent(JArr(norm), JArr(pm));
        var m := ApplyMainStep(w1, LegacyMainAction(changed, lo.active), lo);
        var t := ApplyLegacyTmpStep(m.world, LegacyTmpAction(ra, wasOn, !CompareJsonContent(oldTmp, JArr(pt))), m.value, lo);
        Step(t.world, Ok(t.value))
  }

  /** The part of `save_configs` after validation, given the submitted
      lists and flag. */
  function SaveValidStep(w: World, main: seq<Json>, tmp: Json, ra: Json, lo: LegacyOracles): Step<Outcome<LegacyResponse>>
  {
    var (oldMain, f1) := LoadConfig(w.files, LegacyRegisterJson, LegacyDefaultMain);
    var (oldTmp, f2) := LoadConfig(f1, LegacyRegisterTmpJson, LegacyDefaultTmp);
    var w2 := w.(files := f2);
    match ProcessBoth(main, tmp)
    case Raise(e) => Step(w2, Raise(e))
    case Ok((pm, pt)) => ReconcileStep(w2, oldMain, oldTmp, LoadRemoteAssistance(f2), pm, pt, ra, lo)
  }

  /** `save_configs()` after the login check. Raise is an exception the
      handler does not catch. */
  function LegacySaveStep(w: World, data: Json, lo: LegacyOracles): Step<Outcome<LegacyResponse>>
  {
    match (Get(data, "mainConfig", JArr([])), Get(data, "tmpConfig", JArr([])),
           Get(data, "remoteAssistance", JBool(false)))
    case (Ok(main), Ok(tmp), Ok(ra)) =>
      (match Validate(main, tmp, ra)
       case Raise(e) => Step(w, Raise(e))
       case Ok(Some(msg)) => Step(w, Ok(LegacyResponse(400, false, [Plain(msg)], None)))
       case Ok(None) => SaveValidStep(w, Iterate(main).value, tmp, ra, lo))
    case _ => Step(w, Raise(AttributeError))
  }

  method LoadConfigFile(app: App, target: string, default: string) returns (v: Json)
    modifies app
    ensures (v, app.files) == LoadConfig(old(app.files), target, default)
    ensures app.procs == old(app.procs) && app.handle == old(app.handle)
  {
    if target !in app.files && default in app.files {
      app.CopyFile(default, target);
    }
    if target !in app.files {
      return JArr([]);
    }
    var loaded := LoadJson(app.files, target);
    v := if loaded.Ok? then loaded.value else JArr([]);
  }

  method ProcessBothLists(main: seq<Json>, tmp: Json) returns (r: Outcome<(seq<Json>, seq<Json>)>)
    ensures r == ProcessBoth(main, tmp)
  {
    var pm := ProcessRuleList(main, 3);
    if pm.Raise? {
      return Raise(pm.exc);
    }
    var tmpItems := Iterate(tmp);
    if tmpItems.Raise? {
      return Raise(tmpItems.exc);
    }
    var pt := ProcessRuleList(tmpItems.value, 4);
    if pt.Raise? {
      return Raise(pt.exc);
    }
    r := Ok((pm.value, pt.value));
  }

  method Reconcile(app: App, oldMain: Json, oldTmp: Json, wasOn: bool, pm: seq<Json>, pt: seq<Json>,
                   ra: Json, lo: LegacyOracles) returns (resp: Outcome<LegacyResponse>)
    modifies app
    ensures Step(app.State(), resp) == ReconcileStep(old(app.State()), oldMain, oldTmp, wasOn, pm, pt, ra, lo)
  {
    StoreSubmissionFiles(app, pm, pt, ra);
    resp := Act(app, oldMain, oldTmp, wasOn, pm, pt, ra, lo);
  }

  method StoreSubmissionFiles(app: App, pm: seq<Json>, pt: seq<Json>, ra: Json)
    modifies app
    ensures app.State() == old(app.State()).(files := StoreSubmission(old(app.files), pm, pt, ra))
  {
    app.WriteFile(LegacyRegisterJson, Doc(JArr(pm)));
    app.WriteFile(LegacyRegisterTmpJson, Doc(JArr(pt)));
    app.WriteFile(LegacyFlagFile, Text(if Truthy(ra) then "true" else "false"));
  }

  method Act(app: App, oldMain: Json, oldTmp: Json, wasOn: bool, pm: seq<Json>, pt: seq<Json>,
             ra: Json, lo: LegacyOracles) returns (resp: Outcome<LegacyResponse>)
    modifies app
    ensures Step(app.State(), resp) == ActStep(old(app.State()), oldMain, oldTmp, wasOn, pm, pt, ra, lo)
  {
    var oldItems := Iterate(oldMain);
    if oldItems.Raise? {
      return Raise(oldItems.exc);
    }
    var norm := NormalizeRuleList(oldItems.value);
    if norm.Raise? {
      return Raise(norm.exc);
    }
    var changed := !CompareJsonContent(JArr(norm.value), JArr(pm));
    var restartMessage := ApplyMain(app, LegacyMainAction(changed, lo.active), lo);
    var tmpChanged := !CompareJsonContent(oldTmp, JArr(pt));
    var r := ApplyLegacyTmp(app, LegacyTmpAction(ra, wasOn, tmpChanged), restartMessage, lo);
    resp := Ok(r);
  }

  method SaveValid(app: App, main: seq<Json>, tmp: Json, ra: Json, lo: LegacyOracles)
    returns (resp: Outcome<LegacyResponse>)
    modifies app
    ensures Step(app.State(), resp) == SaveValidStep(old(app.State()), main, tmp, ra, lo)
  {
    var oldMain := LoadConfigFile(app, LegacyRegisterJson, LegacyDefaultMain);
    var oldTmp := LoadConfigFile(app, LegacyRegisterTmpJson, LegacyDefaultTmp);
    var wasOn := LoadRemoteAssistance(app.files);
    var processed := ProcessBothLists(main, tmp);
    if processed.Raise? {
      return Raise(processed.exc);
    }
    resp := Reconcile(app, oldMain, oldTmp, wasOn, processed.value.0, processed.value.1, ra, lo);
  }

  method LegacySaveConfigs(app: App, data: Json, lo: LegacyOracles) returns (resp: Outcome<LegacyResponse>)
    modifies app
    ensures Step(app.State(), resp) == LegacySaveStep(old(app.State()), data, lo)
  {
    if !data.JObj? {
      return Raise(AttributeError);
    }
    var main := Get(data, "mainConfig", JArr([])).value;
    var tmp := Get(data, "tmpConfig", JArr([])).value;
    var ra := Get(data, "remoteAssistance", JBool(false)).value;
    var verdict := Validate(main, tmp, ra);
    if verdict.Raise? {
      return Raise(verdict.exc);
    }
    if verdict.value.Some? {
      return Ok(LegacyResponse(400, false, [Plain(verdict.value.value)], None));
    }
    resp := SaveValid(app, Iterate(main).value, tmp, ra, lo);
  }

  /** A request that fails validation is answered with status 400 and
      changes nothing. */
  lemma LegacySaveStores(w: World, data: Json, lo: LegacyOracles)
    requires data.JObj?
    ensures var main := Get(data, "mainConfig", JArr([])).value;
      var tmp := Get(data, "tmpConfig", JArr([])).value;
      var ra := Get(data, "remoteAssistance", JBool(false)).value;
      Validate(main, tmp, ra).Ok? && Validate(main, tmp, ra).value.Some? ==>
        LegacySaveStep(w, data, lo).world == w && LegacySaveStep(w, data, lo).value.value.status == 400
  {
  }

  /** Re-submitting the stored main rules does not touch the main tunnel. */
  lemma ResubmissionLeavesMain(stored: seq<Json>, items: seq<Json>, running: bool)
    requires ProcessRules(items, 3).Ok? && stored == ProcessRules(items, 3).value
    requires forall r :: r in stored ==> StableBindPort(r)
    ensures NormalizeRules(stored).Ok?
    ensures LegacyMainAction(!CompareJsonContent(JArr(NormalizeRules(stored).value), JArr(stored)), running) == LeaveMain
  {
    ResubmissionIsUnchanged(items);
    CompareJsonReflexive(JArr(stored));
  }
}
