/**
 * web_routes.py: the drift detector that decides whether the main tunnel
 * must be re-registered before it is started, the service start/stop/restart
 * gating, and the `save_config` handler with its integer cleaning of the
 * submitted rules and its remote-assistance transitions.
 *
 * The module `syslog` is used in this file but never imported; the model
 * follows the evident intent (logging has no effect) and records what the
 * code does as written in `EnsureAsWritten` and `SaveConfigAsWritten`.
 */
module WebRoutes {
  import opened PyJson
  import opened Host
  import opened FrpcService

  // ============================================================ remotePort scan

  const PortKey: string := "remotePort"

  /** The end of the run of white space starting at i. */
  function SkipSpaces(s: string, i: nat): (j: nat)
    requires i <= |s|
    ensures i <= j <= |s|
    ensures forall k :: i <= k < j ==> IsSpace(s[k])
    ensures j < |s| ==> !IsSpace(s[j])
    decreases |s| - i
  {
    if i < |s| && IsSpace(s[i]) then SkipSpaces(s, i + 1) else i
  }

  /** The end of the run of digits starting at i. */
  function SkipDigits(s: string, i: nat): (j: nat)
    requires i <= |s|
    ensures i <= j <= |s|
    ensures forall k :: i <= k < j ==> IsDigit(s[k])
    ensures j < |s| ==> !IsDigit(s[j])
    decreases |s| - i
  {
    if i < |s| && IsDigit(s[i]) then SkipDigits(s, i + 1) else i
  }

  /** The pattern `remotePort\s*=\s*(\d+)` matches at position i. Both `\s*`
      are followed by a character they cannot consume, so the greedy match
      is the only one. */
  predicate MatchAt(s: string, i: nat)
  {
    && i + 10 <= |s| && s[i..i + 10] == PortKey
    && var a := SkipSpaces(s, i + 10);
       && a < |s| && s[a] == '='
       && var b := SkipSpaces(s, a + 1);
          b < |s| && IsDigit(s[b])
  }

  function CaptureStart(s: string, i: nat): (b: nat)
    requires MatchAt(s, i)
    ensures i + 10 < b < |s|
  {
    SkipSpaces(s, SkipSpaces(s, i + 10) + 1)
  }

  function MatchEnd(s: string, i: nat): (e: nat)
    requires MatchAt(s, i)
    ensures CaptureStart(s, i) < e <= |s|
  {
    SkipDigits(s, CaptureStart(s, i))
  }

  /** The group the match captures: the whole run of digits. */
  function Capture(s: string, i: nat): (r: string)
    requires MatchAt(s, i)
    ensures |r| >= 1 && AllDigits(r)
  {
    s[CaptureStart(s, i)..MatchEnd(s, i)]
  }

  /** `re.findall(r'remotePort\s*=\s*(\d+)', s[i:])`: scan to the right,
      resuming after the end of each match. */
  function FindAll(s: string, i: nat): seq<string>
    requires i <= |s|
    decreases |s| - i
  {
    if i == |s| then []
    else if MatchAt(s, i) then [Capture(s, i)] + FindAll(s, MatchEnd(s, i))
    else FindAll(s, i + 1)
  }

  /** The set of remote ports an installed TOML document declares. */
  function ActualPorts(toml: string): set<string>
  {
    set p | p in FindAll(toml, 0)
  }

  /** The first two characters of "remotePort" wherever it occurs. */
  lemma KeyChars(s: string, k: nat)
    ensures k + 10 <= |s| && s[k..k + 10] == PortKey ==> s[k] == 'r' && s[k + 1] == 'e'
  {
    if k + 10 <= |s| {
      assert s[k..k + 10][0] == s[k] && s[k..k + 10][1] == s[k + 1];
    }
  }

  /** No match begins inside another: "remotePort" cannot restart inside
      itself, and the rest of a match is white space, '=' and digits. */
  lemma NoMatchInsideMatch(s: string, i: nat, k: nat)
    requires MatchAt(s, i) && i < k < MatchEnd(s, i)
    ensures !MatchAt(s, k)
  {
    KeyChars(s, k);
    if k < i + 10 {
      assert s[k] == PortKey[k - i] by { assert s[i..i + 10][k - i] == s[k]; }
      if k - i == 8 {
        assert s[k + 1] == 't' by { assert s[i..i + 10][9] == s[k + 1]; }
      }
    } else {
      var a := SkipSpaces(s, i + 10);
      var b := CaptureStart(s, i);
      assert IsSpace(s[k]) || s[k] == '=' || IsDigit(s[k]) by {
        if k < a || (a < k < b) {
        } else if k >= b {
        }
      }
    }
  }

  /** The ports `findall` returns from position j on are exactly the captures
      of the matches that start at j or later. */
  lemma {:induction false} FindAllMembers(s: string, j: nat)
    requires j <= |s|
    ensures forall p :: p in FindAll(s, j) <==> exists i :: j <= i < |s| && MatchAt(s, i) && Capture(s, i) == p
    decreases |s| - j
  {
    if j < |s| {
      if MatchAt(s, j) {
        var e := MatchEnd(s, j);
        FindAllMembers(s, e);
        forall i | j < i < e
          ensures !MatchAt(s, i)
        {
          NoMatchInsideMatch(s, j, i);
        }
      } else {
        FindAllMembers(s, j + 1);
      }
    }
  }

  /** A port is declared iff some match of the pattern captures it. */
  lemma ActualPortsExact(toml: string, p: string)
    ensures p in ActualPorts(toml) <==> exists i :: 0 <= i < |toml| && MatchAt(toml, i) && Capture(toml, i) == p
  {
    FindAllMembers(toml, 0);
  }

  // ============================================================ expected ports

  /** `str(item.get('bindPort'))`: a missing bindPort gives "None". */
  function ExpectedPort(item: Json): (r: Outcome<string>)
    ensures r.Ok? <==> item.JObj?
  {
    match Get(item, "bindPort", JNull)
    case Ok(v) => Ok(PyStr(v))
    case Raise(e) => Raise(e)
  }

  /** The `expected_ports` set, or the exception a rule that is not a dict
      raises. */
  function ExpectedPorts(items: seq<Json>): Outcome<set<string>>
  {
    if items == [] then Ok({})
    else match ExpectedPorts(items[..|items| - 1])
      case Raise(e) => Raise(e)
      case Ok(ports) =>
        match ExpectedPort(items[|items| - 1])
        case Raise(e) => Raise(e)
        case Ok(p) => Ok(if p != "" then ports + {p} else ports)
  }

  /** The set is defined iff every rule is a dict. */
  lemma {:induction false} ExpectedPortsDefined(items: seq<Json>)
    ensures ExpectedPorts(items).Ok? <==> forall k :: 0 <= k < |items| ==> items[k].JObj?
  {
    if items != [] {
      var init := items[..|items| - 1];
      ExpectedPortsDefined(init);
      assert forall k :: 0 <= k < |init| ==> init[k] == items[k];
    }
  }

  /** Some rule's `str(bindPort)` is p. */
  predicate SomeRuleNames(items: seq<Json>, p: string)
  {
    exists k :: 0 <= k < |items| && ExpectedPort(items[k]) == Ok(p)
  }

  lemma SomeRuleNamesSnoc(init: seq<Json>, last: Json, p: string)
    ensures SomeRuleNames(init + [last], p) <==> SomeRuleNames(init, p) || ExpectedPort(last) == Ok(p)
  {
    var items := init + [last];
    if SomeRuleNames(items, p) {
      var k :| 0 <= k < |items| && ExpectedPort(items[k]) == Ok(p);
      if k < |init| {
        assert items[k] == init[k];
      } else {
        assert items[k] == last;
      }
    }
    if SomeRuleNames(init, p) {
      var k :| 0 <= k < |init| && ExpectedPort(init[k]) == Ok(p);
      assert items[k] == init[k];
    }
    if ExpectedPort(last) == Ok(p) {
      assert items[|init|] == last;
    }
  }

  /** The set holds the non-empty `str(bindPort)` of every rule. */
  lemma {:induction false} ExpectedPortsMembers(items: seq<Json>)
    requires ExpectedPorts(items).Ok?
    ensures forall p :: p in ExpectedPorts(items).value <==> p != "" && SomeRuleNames(items, p)
  {
    if items != [] {
      var init := items[..|items| - 1];
      var last := items[|items| - 1];
      assert items == init + [last];
      ExpectedPortsMembers(init);
      forall p
        ensures p in ExpectedPorts(items).value <==> p != "" && SomeRuleNames(items, p)
      {
        SomeRuleNamesSnoc(init, last, p);
      }
    }
  }

  /** A rule without a bindPort contributes "None", which no declared port
      equals, so such a rule always reads as drift. */
  lemma MissingBindPortNeverMatches(items: seq<Json>, k: nat, toml: string)
    requires ExpectedPorts(items).Ok? && k < |items|
    requires items[k].JObj? && Lookup(items[k].fields, "bindPort") == None
    ensures "None" in ExpectedPorts(items).value
    ensures "None" !in ActualPorts(toml)
  {
    ExpectedPortsMembers(items);
    assert ExpectedPort(items[k]) == Ok("None");
    ActualPortsExact(toml, "None");
    forall i | 0 <= i < |toml| && MatchAt(toml, i)
      ensures Capture(toml, i) != "None"
    {
      assert IsDigit(Capture(toml, i)[0]);
    }
  }

  // ============================================================ drift detector

  /** What the consistency check finds. */
  datatype Verdict =
    | TomlMissing            // frpc.toml does not exist
    | RulesMissing           // register_proxy.json does not exist
    | Consistent             // every expected port is declared (or none is expected)
    | Drifted                // some expected port is not declared
    | CheckFailed(exc: Exc)  // the check raised; registration is suppressed

  function Diagnose(files: map<string, File>): Verdict
  {
    if FrpcToml !in files then TomlMissing
    else if RegisterJson !in files then RulesMissing
    else match LoadJson(files, RegisterJson)
      case Raise(e) => CheckFailed(e)
      case Ok(rules) =>
        match Iterate(rules)
        case Raise(e) => CheckFailed(e)
        case Ok(items) =>
          match ExpectedPorts(items)
          case Raise(e) => CheckFailed(e)
          case Ok(expected) =>
            if expected == {} then Consistent
            else match ReadText(files, FrpcToml)
              case Raise(e) => CheckFailed(e)
              case Ok(toml) => if expected <= ActualPorts(toml) then Consistent else Drifted
  }

  predicate NeedsRegister(v: Verdict)
  {
    v.TomlMissing? || v.RulesMissing? || v.Drifted?
  }

  /** Drift means that some expected port is captured by no match in the
      installed document; ports the document declares beyond the expected
      ones never count as drift. */
  lemma DriftedIff(files: map<string, File>, items: seq<Json>, toml: string)
    requires FrpcToml in files && RegisterJson in files
    requires LoadJson(files, RegisterJson).Ok? && Iterate(LoadJson(files, RegisterJson).value) == Ok(items)
    requires ExpectedPorts(items).Ok? && ReadText(files, FrpcToml) == Ok(toml)
    ensures Diagnose(files) == Drifted <==>
      exists p :: p in ExpectedPorts(items).value &&
        !(exists i :: 0 <= i < |toml| && MatchAt(toml, i) && Capture(toml, i) == p)
  {
    FindAllMembers(toml, 0);
    if Diagnose(files) == Drifted {
      var p :| p in ExpectedPorts(items).value && p !in ActualPorts(toml);
      ActualPortsExact(toml, p);
    }
  }

  /** `_ensure_config_consistency()` with logging as a no-op: register when
      needed; False only when that registration failed. */
  function EnsureStep(w: World, o: Oracles): (r: Step<bool>)
    ensures !NeedsRegister(Diagnose(w.files)) ==> r == Step(w, true)
    ensures NeedsRegister(Diagnose(w.files)) ==> r == RegisterFrpcStep(w, o.mainReply)
    ensures !r.value ==> NeedsRegister(Diagnose(w.files))
  {
    if NeedsRegister(Diagnose(w.files)) then RegisterFrpcStep(w, o.mainReply) else Step(w, true)
  }

  /** The check of `_ensure_config_consistency`'s loop over the rules. */
  method CollectExpectedPorts(items: seq<Json>) returns (r: Outcome<set<string>>)
    ensures r == ExpectedPorts(items)
  {
    var expected: set<string> := {};
    var i := 0;
    while i < |items|
      invariant 0 <= i <= |items|
      invariant ExpectedPorts(items[..i]) == Ok(expected)
    {
      assert items[..i + 1][..i] == items[..i];
      var port := ExpectedPort(items[i]);
      if port.Raise? {
        ExpectedPortsRaise(items, i + 1);
        return Raise(port.exc);
      }
      if port.value != "" {
        expected := expected + {port.value};
      }
      i := i + 1;
    }
    assert items[..i] == items;
    r := Ok(expected);
  }

  /** Once a prefix raises, the whole list raises the same exception. */
  lemma {:induction false} ExpectedPortsRaise(items: seq<Json>, n: nat)
    requires n <= |items| && ExpectedPorts(items[..n]).Raise?
    ensures ExpectedPorts(items) == ExpectedPorts(items[..n])
    decreases |items| - n
  {
    if n < |items| {
      assert items[..n + 1][..n] == items[..n];
      ExpectedPortsRaise(items, n + 1);
    } else {
      assert items[..n] == items;
    }
  }

  method EnsureConfigConsistency(app: App, o: Oracles) returns (ok: bool)
    modifies app
    ensures Step(app.State(), ok) == EnsureStep(old(app.State()), o)
  {
    var needRegister := false;
    if FrpcToml !in app.files {
      needRegister := true;
    } else if RegisterJson !in app.files {
      needRegister := true;
    } else {
      var rules := LoadJson(app.files, RegisterJson);
      if rules.Ok? {
        var items := Iterate(rules.value);
        if items.Ok? {
          var expected := CollectExpectedPorts(items.value);
          if expected.Ok? && expected.value != {} {
            var toml := ReadText(app.files, FrpcToml);
            if toml.Ok? && !(expected.value <= ActualPorts(toml.value)) {
              needRegister := true;
            }
          }
        }
      }
    }
    assert needRegister == NeedsRegister(Diagnose(app.files));
    if needRegister {
      ok := RegisterFrpcProxy(app, o.mainReply);
      if !ok {
        return false;
      }
    }
    ok := true;
  }

  /** The function as written: every branch that logs calls the missing
      `syslog` and raises NameError, including the handler at line 278 that
      catches the check's own exceptions. */
  function EnsureAsWritten(w: World, o: Oracles): Step<Outcome<bool>>
  {
    if Diagnose(w.files).Consistent? then Step(w, Ok(true)) else Step(w, Raise(NameError))
  }

  /** As written the function never registers: it returns normally exactly
      when there is nothing to register, and raises NameError in every case
      where the intended version would register or report a failed check. */
  lemma EnsureAsWrittenNeverRegisters(w: World, o: Oracles)
    ensures EnsureAsWritten(w, o).world == w
    ensures EnsureAsWritten(w, o).value.Ok? <==> Diagnose(w.files).Consistent?
    ensures NeedsRegister(Diagnose(w.files)) ==> EnsureAsWritten(w, o).value == Raise(NameError)
    ensures EnsureAsWritten(w, o).value.Ok? ==> Step(w, EnsureAsWritten(w, o).value.value) == EnsureStep(w, o)
  {
  }

  /** A missing frpc.toml: the intended version registers, and writes
      frpc.toml when the cloud answers; the code as written raises instead. */
  lemma MissingTomlFinding(w: World, o: Oracles)
    requires FrpcToml !in w.files && o.mainReply.Ok? && NonEmpty(o.mainReply.value.config)
    requires RegisterJson in w.files && w.files[RegisterJson].Doc?
    ensures EnsureStep(w, o).value && FrpcToml in EnsureStep(w, o).world.files
    ensures EnsureAsWritten(w, o).value == Raise(NameError)
  {
  }

  // ============================================================ service gating

  /** The JSON reply of a handler: success flag and message, whose parts
      are literal text or `str(e)` of a caught exception. */
  datatype Response = Response(success: bool, message: seq<Msg>)

  function Say(success: bool, text: string): Response
  {
    Response(success, [Plain(text)])
  }

  /** `service_start()`: check the configuration first, then start. */
  function ServiceStartStep(w: World, o: Oracles): (r: Step<Response>)
    ensures var e := EnsureStep(w, o);
      r.value.success <==> e.value && StartFrpcStep(e.world, o).value
    ensures !EnsureStep(w, o).value ==> r.world == EnsureStep(w, o).world
  {
    var e := EnsureStep(w, o);
    if !e.value then Step(e.world, Say(false, "服务启动失败：配置自动修正失败，请检查日志"))
    else
      var s := StartFrpcStep(e.world, o);
      Step(s.world, Say(s.value, if s.value then "服务启动成功" else "服务启动失败"))
  }

  method ServiceStart(app: App, o: Oracles) returns (resp: Response)
    modifies app
    ensures Step(app.State(), resp) == ServiceStartStep(old(app.State()), o)
  {
    var consistent := EnsureConfigConsistency(app, o);
    if !consistent {
      return Say(false, "服务启动失败：配置自动修正失败，请检查日志");
    }
    var started := StartFrpc(app, o);
    resp := Say(started, if started then "服务启动成功" else "服务启动失败");
  }

  /** `service_stop()`: no consistency check; stop always reports success. */
  function ServiceStopStep(w: World, o: Oracles): (r: Step<Response>)
    ensures r.value.success && r.world == StopFrpcStep(w, o).world
  {
    Step(StopFrpcStep(w, o).world, Say(true, "服务停止成功"))
  }

  method ServiceStop(app: App, o: Oracles) returns (resp: Response)
    modifies app
    ensures Step(app.State(), resp) == ServiceStopStep(old(app.State()), o)
  {
    var stopped, _ := StopFrpc(app, o);
    resp := Say(stopped, if stopped then "服务停止成功" else "服务停止失败");
  }

  /** `service_restart()`: check the configuration first, then restart;
      restart itself always reports success. */
  function ServiceRestartStep(w: World, o: Oracles): (r: Step<Response>)
    ensures r.value.success <==> EnsureStep(w, o).value
  {
    var e := EnsureStep(w, o);
    if !e.value then Step(e.world, Say(false, "服务重启失败：配置自动修正失败，请检查日志"))
    else Step(RestartFrpcStep(e.world, o).world, Say(true, "服务重启成功"))
  }

  method ServiceRestart(app: App, o: Oracles) returns (resp: Response)
    modifies app
    ensures Step(app.State(), resp) == ServiceRestartStep(old(app.State()), o)
  {
    var consistent := EnsureConfigConsistency(app, o);
    if !consistent {
      return Say(false, "服务重启失败：配置自动修正失败，请检查日志");
    }
    var restarted := RestartFrpc(app, o);
    resp := Say(restarted, if restarted then "服务重启成功" else "服务重启失败");
  }

  /** A start or restart whose consistency check fails touches no process;
      on a consistent configuration neither registers. */
  lemma GatingProtectsProcesses(w: World, o: Oracles)
    ensures !EnsureStep(w, o).value ==>
      ServiceStartStep(w, o).world.procs == w.procs && ServiceStartStep(w, o).world.handle == w.handle &&
      ServiceRestartStep(w, o).world.procs == w.procs && ServiceRestartStep(w, o).world.handle == w.handle
    ensures Diagnose(w.files).Consistent? ==>
      ServiceStartStep(w, o).world == StartFrpcStep(w, o).world &&
      ServiceRestartStep(w, o).world == RestartFrpcStep(w, o).world
  {
  }

  // ============================================================ save_config

  /** One submitted rule after `int()` of both ports (default 0): None when
      the rule is not a dict or either conversion raises. */
  function CleanRule(item: Json): (r: Option<Json>)
    ensures r.Some? ==> item.JObj? && r.value.JObj?
  {
    match (Get(item, "localPort", JInt(0)), Get(item, "bindPort", JInt(0)))
    case (Ok(l), Ok(b)) =>
      (match (PyInt(l), PyInt(b))
       case (Ok(lp), Ok(bp)) =>
         Some(JObj(SetField(SetField(item.fields, "localPort", JInt(lp)), "bindPort", JInt(bp))))
       case _ => None)
    case _ => None
  }

  /** A kept rule has integer ports equal to `int()` of the submitted ones,
      and every other field as submitted. */
  lemma CleanRuleFields(item: Json)
    requires CleanRule(item).Some?
    ensures var fs := CleanRule(item).value.fields;
      && Lookup(fs, "localPort") == Some(JInt(PyInt(Get(item, "localPort", JInt(0)).value).value))
      && Lookup(fs, "bindPort") == Some(JInt(PyInt(Get(item, "bindPort", JInt(0)).value).value))
      && forall k :: k != "localPort" && k != "bindPort" ==> Lookup(fs, k) == Lookup(item.fields, k)
  {
  }

  /** `cleaned_main_config`: the kept rules, cleaned, in their order. */
  function CleanRules(items: seq<Json>): seq<Json>
  {
    if items == [] then []
    else
      var last := CleanRule(items[|items| - 1]);
      CleanRules(items[..|items| - 1]) + (if last.Some? then [last.value] else [])
  }

  lemma {:induction false} CleanRulesAppend(a: seq<Json>, b: seq<Json>)
    ensures CleanRules(a + b) == CleanRules(a) + CleanRules(b)
  {
    if b == [] {
      assert a + b == a;
    } else {
      var b' := b[..|b| - 1];
      assert (a + b)[..|a + b| - 1] == a + b';
      assert (a + b)[|a + b| - 1] == b[|b| - 1];
      CleanRulesAppend(a, b');
    }
  }

  /** Cleaning drops rules but never adds any, and every kept rule has
      integer ports. */
  lemma {:induction false} CleanRulesShape(items: seq<Json>)
    ensures |CleanRules(items)| <= |items|
    ensures forall r :: r in CleanRules(items) ==>
      r.JObj? && Lookup(r.fields, "localPort").Some? && Lookup(r.fields, "localPort").value.JInt? &&
      Lookup(r.fields, "bindPort").Some? && Lookup(r.fields, "bindPort").value.JInt?
  {
    if items != [] {
      CleanRulesShape(items[..|items| - 1]);
      var last := items[|items| - 1];
      if CleanRule(last).Some? {
        CleanRuleFields(last);
      }
    }
  }

  /** `d[k] = d[k]` changes nothing. */
  lemma {:induction false} SetFieldExisting(fs: seq<(string, Json)>, k: string, x: Json)
    requires Lookup(fs, k) == Some(x)
    ensures SetField(fs, k, x) == fs
  {
    if fs != [] && fs[0].0 != k {
      SetFieldExisting(fs[1..], k, x);
    }
  }

  /** A cleaned rule is its own cleaning. */
  lemma CleanRuleIdempotent(item: Json)
    requires CleanRule(item).Some?
    ensures CleanRule(CleanRule(item).value) == CleanRule(item)
  {
    var c := CleanRule(item).value;
    CleanRuleFields(item);
    var lp := Lookup(c.fields, "localPort").value;
    var bp := Lookup(c.fields, "bindPort").value;
    SetFieldExisting(c.fields, "localPort", lp);
    SetFieldExisting(c.fields, "bindPort", bp);
  }

  /** Saving the saved rules again stores the same list. */
  lemma {:induction false} CleanRulesIdempotent(items: seq<Json>)
    ensures CleanRules(CleanRules(items)) == CleanRules(items)
  {
    if items != [] {
      var init := items[..|items| - 1];
      var last := CleanRule(items[|items| - 1]);
      CleanRulesIdempotent(init);
      CleanRulesAppend(CleanRules(init), if last.Some? then [last.value] else []);
      if last.Some? {
        CleanRuleIdempotent(items[|items| - 1]);
        assert CleanRules([last.value]) == [last.value] by {
          assert [last.value][..0] == [];
        }
      } else {
        assert CleanRules(init) + [] == CleanRules(init);
      }
    }
  }

  /** The cleaning loop of `save_config`. */
  method CleanRuleList(items: seq<Json>) returns (cleaned: seq<Json>)
    ensures cleaned == CleanRules(items)
  {
    cleaned := [];
    var i := 0;
    while i < |items|
      invariant 0 <= i <= |items|
      invariant cleaned == CleanRules(items[..i])
    {
      assert items[..i + 1][..i] == items[..i];
      var rule := CleanRule(items[i]);
      if rule.Some? {
        cleaned := cleaned + [rule.value];
      }
      i := i + 1;
    }
    assert items[..i] == items;
  }

  const MainUpdated: string := "主服务配置已更新。"
  const MainSyncFailed: string := "主服务配置更新失败（云端同步失败）。"

  /** Step 1: store the cleaned main rules, register, and restart the main
      tunnel only when the registration succeeded. */
  function SaveMainStep(w: World, items: seq<Json>, o: Oracles): (r: Step<string>)
    ensures var w1 := w.(files := w.files[RegisterJson := Doc(JArr(CleanRules(items)))]);
      var reg := RegisterFrpcStep(w1, o.mainReply);
      && (reg.value ==> r == Step(RestartFrpcStep(reg.world, o).world, MainUpdated))
      && (!reg.value ==> r == Step(reg.world, MainSyncFailed))
  {
    var w1 := w.(files := w.files[RegisterJson := Doc(JArr(CleanRules(items)))]);
    var reg := RegisterFrpcStep(w1, o.mainReply);
    if reg.value then Step(RestartFrpcStep(reg.world, o).world, MainUpdated)
    else Step(reg.world, MainSyncFailed)
  }

  method SaveMain(app: App, items: seq<Json>, o: Oracles) returns (suffix: string)
    modifies app
    ensures Step(app.State(), suffix) == SaveMainStep(old(app.State()), items, o)
  {
    var cleaned := CleanRuleList(items);
    app.WriteFile(RegisterJson, Doc(JArr(cleaned)));
    var registered := RegisterFrpcProxy(app, o.mainReply);
    if registered {
      var _ := RestartFrpc(app, o);
      suffix := MainUpdated;
    } else {
      suffix := MainSyncFailed;
    }
  }

  /** The stored main rules are the cleaned submission, and the main tunnel
      is left alone unless the registration succeeded. */
  lemma SaveMainEffects(w: World, items: seq<Json>, o: Oracles)
    ensures var r := SaveMainStep(w, items, o);
      RegisterJson in r.world.files && r.world.files[RegisterJson] == Doc(JArr(CleanRules(items)))
    ensures SaveMainStep(w, items, o).value == MainSyncFailed ==>
      SaveMainStep(w, items, o).world.procs == w.procs && SaveMainStep(w, items, o).world.handle == w.handle
  {
    var w1 := w.(files := w.files[RegisterJson := Doc(JArr(CleanRules(items)))]);
    var reg := RegisterFrpcStep(w1, o.mainReply);
    assert RegisterJson in reg.world.files && reg.world.files[RegisterJson] == Doc(JArr(CleanRules(items)));
    if reg.value {
      var s := StopFrpcStep(reg.world, o).world;
      assert StartFrpcStep(s, o).world.files.Keys <= s.files.Keys + {FrpcLog};
    }
  }

  /** Step 2: store the cleaned temporary rules; a submission that cannot be
      iterated leaves the stored list as it was and counts as empty. */
  function SaveTmpStep(w: World, tmp: Json): (r: Step<seq<Json>>)
    ensures Iterate(tmp).Raise? ==> r == Step(w, [])
    ensures Iterate(tmp).Ok? ==> var c := CleanRules(Iterate(tmp).value);
      r == Step(w.(files := w.files[RegisterTmpJson := Doc(JArr(c))]), c)
  {
    match Iterate(tmp)
    case Raise(_) => Step(w, [])
    case Ok(items) =>
      var c := CleanRules(items);
      Step(w.(files := w.files[RegisterTmpJson := Doc(JArr(c))]), c)
  }

  method SaveTmp(app: App, tmp: Json) returns (cleaned: seq<Json>)
    modifies app
    ensures Step(app.State(), cleaned) == SaveTmpStep(old(app.State()), tmp)
  {
    var items := Iterate(tmp);
    if items.Raise? {
      return [];
    }
    cleaned := CleanRuleList(items.value);
    app.WriteFile(RegisterTmpJson, Doc(JArr(cleaned)));
  }

  /** The old remote-assistance flag: the file's stripped text is exactly
      "true" (no case folding in this copy). */
  function OldFlag(files: map<string, File>): bool
  {
    match ReadText(files, RemoteAssistanceFile)
    case Ok(t) => Strip(t) == "true"
    case Raise(_) => false
  }

  function FlagText(ra: Json): string
  {
    if Truthy(ra) then "true" else "false"
  }

  /** Writing the flag and reading it back gives the truthiness written. */
  lemma FlagRoundTrip(files: map<string, File>, ra: Json)
    ensures OldFlag(files[RemoteAssistanceFile := Text(FlagText(ra))]) == Truthy(ra)
  {
    StripNoEdgeSpace("true");
    StripNoEdgeSpace("false");
  }

  /** The decision of lines 390-411: `remote_assistance != old` is Python
      equality between the submitted value and a bool. */
  function RoutesTmpAction(ra: Json, wasOn: bool, tmpRules: seq<Json>): (a: TmpAction)
    ensures a == Enable ==> Truthy(ra)
    ensures a == Disable ==> !Truthy(ra)
    ensures a == Refresh ==> Truthy(ra) && EqualsBool(ra, wasOn) && tmpRules != []
  {
    if !EqualsBool(ra, wasOn) then (if Truthy(ra) then Enable else Disable)
    else if Truthy(ra) && tmpRules != [] then Refresh
    else Keep
  }

  /** With a boolean flag: off to on enables, on to off disables, on to on
      refreshes exactly when there are temporary rules, off to off keeps. */
  lemma RoutesTmpActionOnBools(b: bool, wasOn: bool, tmpRules: seq<Json>)
    ensures RoutesTmpAction(JBool(b), wasOn, tmpRules) ==
      if b && !wasOn then Enable
      else if !b && wasOn then Disable
      else if b && tmpRules != [] then Refresh
      else Keep
  {
  }

  /** A flag that is truthy but not equal to True (say the string "on")
      always enables, even while the temporary tunnel already runs; a falsy
      non-bool (say "") always cleans up. */
  lemma RoutesTmpActionOnOtherFlags(ra: Json, wasOn: bool, tmpRules: seq<Json>)
    requires !ra.JBool? && !ra.JInt?
    ensures RoutesTmpAction(ra, wasOn, tmpRules) == if Truthy(ra) then Enable else Disable
  {
  }

  const TmpStarted: string := " 临时服务已启动，访客码: "
  const TmpStartFailed: string := " 临时服务启动失败"
  const TmpRegisterFailed: string := " 临时服务注册失败: "
  const TmpStopped: string := " 临时服务已停止"
  const TmpRefreshed: string := " 临时服务配置已更新"

  /** Carry out a temporary-tunnel action; the value is `visitor_code_msg`. */
  function ApplyTmpStep(w: World, a: TmpAction, o: Oracles): Step<seq<Msg>>
  {
    match a
    case Enable =>
      var reg := RegisterTmpStep(w, o.tmpReply);
      if reg.value.0 then
        var st := StartTmpStep(reg.world, AppTmp, o.which, o.tmpSpawn);
        Step(st.world, if st.value then [Plain(TmpStarted), reg.value.1] else [Plain(TmpStartFailed)])
      else Step(reg.world, [Plain(TmpRegisterFailed), reg.value.1])
    case Disable => Step(CleanupStep(w, AppTmp, o.tmpSurvivors).world, [Plain(TmpStopped)])
    case Refresh =>
      var reg := RegisterTmpStep(w, o.tmpReply);
      if reg.value.0 then Step(StartTmpStep(StopTmpStep(reg.world, AppTmp, o.tmpSurvivors).world, AppTmp, o.which, o.tmpSpawn).world, [Plain(TmpRefreshed)])
      else Step(reg.world, [])
    case Keep => Step(w, [])
  }

  method ApplyTmp(app: App, a: TmpAction, o: Oracles) returns (msg: seq<Msg>)
    modifies app
    ensures Step(app.State(), msg) == ApplyTmpStep(old(app.State()), a, o)
  {
    match a
    case Enable =>
      var ok, result := RegisterTmpProxy(app, o.tmpReply);
      if ok {
        var started := StartTmpFrpc(app, AppTmp, o.which, o.tmpSpawn);
        msg := if started then [Plain(TmpStarted), result] else [Plain(TmpStartFailed)];
      } else {
        msg := [Plain(TmpRegisterFailed), result];
      }
    case Disable =>
      var _ := CleanupTmpFrpcFiles(app, AppTmp, o.tmpSurvivors);
      msg := [Plain(TmpStopped)];
    case Refresh =>
      var ok, _ := RegisterTmpProxy(app, o.tmpReply);
      if ok {
        var _ := StopTmpFrpc(app, AppTmp, o.tmpSurvivors);
        var _ := StartTmpFrpc(app, AppTmp, o.which, o.tmpSpawn);
        msg := [Plain(TmpRefreshed)];
      } else {
        msg := [];
      }
    case Keep =>
      msg := [];
  }

  /** The temporary client is started or restarted only after its
      registration succeeded; a failed registration spawns and ends nothing. */
  lemma TmpStartsOnlyAfterRegistration(w: World, a: TmpAction, o: Oracles)
    requires a == Enable || a == Refresh
    requires !RegisterTmpStep(w, o.tmpReply).value.0
    ensures ApplyTmpStep(w, a, o).world.procs == w.procs
    ensures ApplyTmpStep(w, a, o).world.handle == w.handle
  {
  }

  /** Disabling removes the temporary config, PID file and visitor code. */
  lemma DisableRemovesTmpFiles(w: World, o: Oracles)
    ensures var f := ApplyTmpStep(w, Disable, o).world.files;
      TmpToml !in f && TmpPidFile !in f && VisitorCodeFile !in f
  {
  }

  const NoData: string := "无数据"
  const MainSaveFailed: string := "保存主配置失败: "
  const Saved: string := "配置保存成功。"

  /** `save_config()` with logging as a no-op. The value is Raise for an
      exception the handler does not catch (a request body that is not a
      dict). */
  function SaveConfigStep(w: World, data: Json, o: Oracles): Step<Outcome<Response>>
  {
    if !Truthy(data) then Step(w, Ok(Say(false, NoData)))
    else match (Get(data, "mainConfig", JArr([])), Get(data, "tmpConfig", JArr([])),
                Get(data, "remoteAssistance", JBool(false)))
      case (Ok(main), Ok(tmp), Ok(ra)) =>
        (match Iterate(main)
         case Raise(e) => Step(w, Ok(Response(false, [Plain(MainSaveFailed), ExcText(e)])))
         case Ok(items) =>
           var m := SaveMainStep(w, items, o);
           var t := SaveTmpStep(m.world, tmp);
           var wasOn := OldFlag(t.world.files);
           var w3 := t.world.(files := t.world.files[RemoteAssistanceFile := Text(FlagText(ra))]);
           var a := ApplyTmpStep(w3, RoutesTmpAction(ra, wasOn, t.value), o);
           Step(a.world, Ok(Response(true, [Plain(Saved + m.value)] + a.value))))
      case _ => Step(w, Raise(AttributeError))
  }

  method SaveConfig(app: App, data: Json, o: Oracles) returns (resp: Outcome<Response>)
    modifies app
    ensures Step(app.State(), resp) == SaveConfigStep(old(app.State()), data, o)
  {
    if !Truthy(data) {
      return Ok(Say(false, NoData));
    }
    if !data.JObj? {
      return Raise(AttributeError);
    }
    var main := Get(data, "mainConfig", JArr([])).value;
    var tmp := Get(data, "tmpConfig", JArr([])).value;
    var ra := Get(data, "remoteAssistance", JBool(false)).value;
    var items := Iterate(main);
    if items.Raise? {
      return Ok(Response(false, [Plain(MainSaveFailed), ExcText(items.exc)]));
    }
    var suffix := SaveMain(app, items.value, o);
    var cleanedTmp := SaveTmp(app, tmp);
    var wasOn := OldFlag(app.files);
    app.WriteFile(RemoteAssistanceFile, Text(FlagText(ra)));
    var visitorMsg := ApplyTmp(app, RoutesTmpAction(ra, wasOn, cleanedTmp), o);
    resp := Ok(Response(true, [Plain(Saved + suffix)] + visitorMsg));
  }

  /** A save of a dict body always reports success once the main rules
      could be iterated, stores the flag's truthiness, and reports failure
      without changing anything otherwise. */
  lemma SaveConfigOutcome(w: World, data: Json, o: Oracles)
    requires Truthy(data) && data.JObj?
    ensures var main := Get(data, "mainConfig", JArr([])).value;
      var r := SaveConfigStep(w, data, o);
      && r.value.Ok?
      && (r.value.value.success <==> Iterate(main).Ok?)
      && (!r.value.value.success ==> r.world == w)
  {
  }

  /** `save_config()` as written: when the main or the temporary rules
      cannot be iterated, the handler's `except` branch calls the missing
      `syslog` and raises NameError (after the main rules were saved, in the
      second case). */
  function SaveConfigAsWritten(w: World, data: Json, o: Oracles): Step<Outcome<Response>>
  {
    if Truthy(data) && data.JObj? then
      var main := Get(data, "mainConfig", JArr([])).value;
      var tmp := Get(data, "tmpConfig", JArr([])).value;
      match Iterate(main)
      case Raise(_) => Step(w, Raise(NameError))
      case Ok(items) =>
        if Iterate(tmp).Raise? then Step(SaveMainStep(w, items, o).world, Raise(NameError))
        else SaveConfigStep(w, data, o)
    else SaveConfigStep(w, data, o)
  }

  /** `{"tmpConfig": 5}` should save the main rules, log the failed
      temporary save and answer success; as written the `except` of the
      temporary save raises NameError after the main rules were saved. */
  lemma SaveConfigTmpNameErrorFinding(w: World, o: Oracles)
    ensures var data := JObj([("tmpConfig", JInt(5))]);
      && SaveConfigStep(w, data, o).value.Ok? && SaveConfigStep(w, data, o).value.value.success
      && SaveConfigAsWritten(w, data, o) == Step(SaveMainStep(w, [], o).world, Raise(NameError))
  {
    var data := JObj([("tmpConfig", JInt(5))]);
    assert Lookup(data.fields, "tmpConfig") == Some(JInt(5));
    assert Lookup(data.fields, "mainConfig") == None by {
      assert data.fields[0].0 != "mainConfig";
    }
    assert Lookup(data.fields, "remoteAssistance") == None by {
      assert data.fields[0].0 != "remoteAssistance";
    }
  }

  /** `{"mainConfig": 5}` should be answered with the failure message for
      the main config; as written it ends in a NameError. */
  lemma SaveConfigNameErrorFinding(w: World, o: Oracles)
    ensures var data := JObj([("mainConfig", JInt(5))]);
      && SaveConfigStep(w, data, o) == Step(w, Ok(Response(false, [Plain(MainSaveFailed), ExcText(TypeError)])))
      && SaveConfigAsWritten(w, data, o) == Step(w, Raise(NameError))
  {
    var data := JObj([("mainConfig", JInt(5))]);
    assert Lookup(data.fields, "mainConfig") == Some(JInt(5));
    assert Lookup(data.fields, "tmpConfig") == None by {
      assert data.fields[0].0 != "tmpConfig";
    }
    assert Lookup(data.fields, "remoteAssistance") == None by {
      assert data.fields[0].0 != "remoteAssistance";
    }
  }
}
