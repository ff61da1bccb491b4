# frpc tunnel manager: a Dafny model

This project models the tunnel-management core of a Home Assistant add-on. The add-on drives the external `frpc` reverse-proxy client. It does four things:

- It allocates remote ("bind") ports for the user's forwarding rules.
- It registers those rules with a cloud service, which sends back an `frpc.toml` configuration.
- It supervises two `frpc` processes. The main tunnel is tracked by a process handle. The temporary "remote assistance" tunnel is tracked by a PID file and comes with a visitor code.
- It decides, when the user saves new rules, what to re-register, restart, start or stop.

That logic exists in two generations:

- the older self-contained web service `web_config.py`;
- the newer split into `utils.py`, `frpc_service.py` and `web_routes.py`.

`device.py` derives the device identifier from the MAC address.

## Modules

- **`PyJson`** (pyjson.dfy) covers the Python semantics the handlers rely on:
  - JSON values (`Json`) and exceptions (`Exc`), with `Outcome` for "value or raised exception";
  - `int()` of values and strings, `str()`, truthiness and the `True == 1` comparison;
  - `dict.get`, item assignment, iteration and `len`;
  - `strip()` and `lower()`.
- **`Host`** (host.dfy) is the machine:
  - a file map from path to `Text` or `Doc` (a stored JSON document);
  - a process table from pid to `Proc(binary, config)`;
  - the main-client handle `FRPC_PROCESS`.

  The primitive effects are the methods of `class App`.
- **One module per source file:** `Utils`, `FrpcService`, `WebRoutes`, `WebConfig` and `Device`.
  - Every state-changing operation is a pure `...Step` function from a `World` to a `Step` (the new world and the result).
  - Beside it is an imperative method on `App` whose `ensures` ties the new state to that function.
  - The properties are lemmas about the functions.

Everything outside the process is a parameter:

- spawned pids (`None` when `Popen` raises);
- whether `terminate()` succeeds;
- the value of `shutil.which`;
- the cloud's replies;
- the outcome of shell scripts;
- `systemctl is-active`;
- the MAC API's reply;
- the processes that outlive SIGTERM (`tmpSurvivors`);
- whether the device-identifier write succeeds (`writeOk` of `Device.GetDeviceIdStep`). The other writes always succeed; see "## Left out".

The temporary-tunnel functions of `frpc_service.py` and `web_config.py` differ only in paths and two details. Both are `FrpcService` functions over a `TmpLayout`: `FrpcService.AppTmp` is the newer layout and `WebConfig.LegacyTmp` the older one:

- The older copy has no `shutil.which` fallback.
- The older copy's cleanup also deletes the log.

So the older copies (web_config.py:544-645) are covered by the same rows below.

## Model

| member | source | states |
|---|---|---|
| PyJson.PyInt | common/rootfs/app/utils.py:33-36 | `int(v)` raises only ValueError or TypeError, and ValueError exactly for text that is not an integer literal |
| PyJson.ParseInt | common/rootfs/app/utils.py:34-35 | `int(s)` of a string: surrounding white space, an optional sign, then digits with single underscores between digits; anything else is None (ValueError). ParseIntOfDigits and ParseIntOfDec state its values |
| PyJson.Strip | common/rootfs/app/frpc_service.py:184 | `strip()`: leading and trailing white space removed; StripNoEdgeSpace states that a text without edge white space is kept |
| PyJson.Truthy | common/rootfs/app/web_routes.py:324 | Python truthiness: None, False, 0, "", [] and {} are false, everything else true |
| PyJson.EqualsBool | common/rootfs/app/web_routes.py:390 | `v == b` for a bool b: True == 1 and False == 0, any other non-bool is unequal; a value equal to b has b's truthiness |
| PyJson.ParseIntOfDec | common/rootfs/app/frpc_service.py:184 | `int(str(n))` gives back n for every integer, so a recorded pid reads back as itself |
| PyJson.ParseIntOfDigits | common/rootfs/app/utils.py:48 | `int()` of a non-empty digit string is its decimal value |
| PyJson.PyStr | common/rootfs/app/frpc_service.py:115-116 | `str(v)` is empty only for the empty string, and is the text itself for strings |
| PyJson.PyRepr | common/rootfs/app/frpc_service.py:115-116 | `str()` of a value that is not a string is never empty; PyStrNotDigits states that it is not a digit string |
| PyJson.PyStrNotDigits | common/rootfs/app/web_routes.py:260-261 | `str()` of anything but a non-negative int or a string (None, bools, lists, dicts) is not a digit string |
| PyJson.Lookup | common/rootfs/app/web_routes.py:260 | `d.get(k)` finds a value iff some member has key k, and the value found is that member's |
| PyJson.LookupFirst | common/rootfs/app/web_config.py:1017-1031 | a key's value is the one at its first occurrence |
| PyJson.Get | common/rootfs/app/web_routes.py:327-329 | `.get` succeeds exactly on dicts and raises AttributeError on anything else |
| PyJson.SetField | common/rootfs/app/web_routes.py:340-341 | after `item[k] = x` the key k maps to x and every other key is unchanged |
| PyJson.Iterate | common/rootfs/app/web_routes.py:336 | `for item in v` succeeds exactly on lists, dicts and strings, and a list yields its items |
| PyJson.Len | common/rootfs/app/web_config.py:958 | `len(v)` is defined on the same values as iteration and counts the items iterated |
| PyJson.Lower | common/rootfs/app/web_config.py:266 | `lower()` keeps the length and lowers each character |
| PyJson.Repeat | common/rootfs/app/device.py:57 | `'0' * n` has max(n, 0) characters, all '0' |
| Utils.IntOfText | common/rootfs/app/utils.py:48 | `int(f"{prefix}{padded_port}")`: the only exception is ValueError |
| Utils.Padded | common/rootfs/app/utils.py:44-47 | `"0" * (4 - len(str(p))) + str(p)`; PaddedTextValue and BindPortPadded state the value it gives |
| Utils.BindPortPadded | common/rootfs/app/utils.py:42-48 | for 0 <= p < 1000 the zero-padded allocation gives prefix*10000 + p (22 -> 30022, 802 -> 30802) |
| Utils.PaddedTextValue | common/rootfs/app/utils.py:44-48 | the text `f"{prefix}{padded}"` denotes prefix*10000 + p |
| Utils.BindPortFourDigits | common/rootfs/app/utils.py:50-52 | for 1000 <= p <= 9999 the allocation is prefix*10000 + p (8080 -> 38080) |
| Utils.FourDigitTextValue | common/rootfs/app/utils.py:50-52 | the text `f"{prefix}{p}"` of a four-digit p denotes prefix*10000 + p |
| Utils.BindPortNegative | common/rootfs/app/utils.py:42-48 | a negative port makes the final `int()` raise ValueError (the text is like "300-5") |
| Utils.NoSignInside | common/rootfs/app/utils.py:48 | a '-' between digits makes `int()` fail |
| Utils.BindPortOfCases | common/rootfs/app/utils.py:38-55 | on integers: negative raises ValueError, >= 10000 gives None, 0..9999 gives prefix*10000 + p |
| Utils.BindPortOf | common/rootfs/app/utils.py:38-55 | the allocator after `int()`: 10000 and above asks for a random port (None), and the only exception is the ValueError of the final `int()`; BindPortOfCases gives every value |
| Utils.GenerateBindPort | common/rootfs/app/utils.py:25-55 | a ValueError of `int(local_port)` is caught and asks for a random port; a TypeError escapes, and a ValueError escapes only from the final `int()` after the port converted |
| Utils.GenerateBindPortCases | common/rootfs/app/utils.py:25-55 | unconvertible text gives None, non-numbers raise TypeError, and converted ports follow the integer cases |
| Utils.BindPortRangesDisjoint | common/rootfs/app/utils.py:25-55 | prefix 3 lands in 30000..39999, prefix 4 in 40000..49999, so main and temporary ports never collide |
| Utils.BindPortInjective | common/rootfs/app/utils.py:25-55 | distinct ports in 0..9999 get distinct bind ports under one prefix |
| Utils.GetLinkValueFalseIff22 | common/rootfs/app/utils.py:57-62 | link is false iff `int(v) == 22`; unconvertible text gives true; only non-numbers raise |
| Utils.GetLinkValue | common/rootfs/app/utils.py:57-62 | `get_link_value` raises exactly when `int()` raises TypeError (a ValueError counts as True) |
| Utils.Split | common/rootfs/app/utils.py:69 | `split(':')` gives at least one piece |
| Utils.SplitJoin | common/rootfs/app/utils.py:69-77 | splitting a joined list of separator-free entries gives the list back |
| Utils.DedupProperties | common/rootfs/app/utils.py:71-76 | the de-duplicated list has no duplicates and holds exactly the non-empty input entries |
| Utils.DedupPrefix | common/rootfs/app/utils.py:70-76 | block order: the merge of the existing entries comes first, and the entries after it are defaults not already on PATH; DedupFirstOccurrenceOrder states the order within the list |
| Utils.Dedup | common/rootfs/app/utils.py:70-76 | the `seen`/`unique_paths` loop as a function: never longer than its input and never holding "" |
| Utils.FirstIndex | common/rootfs/app/utils.py:72 | the position of the first occurrence, or the length when there is none, with every earlier entry different |
| Utils.DedupFirstOccurrenceOrder | common/rootfs/app/utils.py:70-76 | the kept entries appear in the order of their first occurrence in the input |
| Utils.MergedPathEntries | common/rootfs/app/utils.py:68-77 | the new PATH's entries are the de-duplicated old entries followed by the defaults |
| Utils.MergedPath | common/rootfs/app/utils.py:66-77 | `':'.join(unique_paths)` of the current entries followed by the six defaults; MergedPathEntries and MergedPathHasDefaults state its entries |
| Utils.MergedPathHasDefaults | common/rootfs/app/utils.py:67-77 | every one of the six default directories is on the new PATH |
| Utils.PrepareEnv | common/rootfs/app/utils.py:64-78 | the loop sets PATH to the merged path, changes no other variable, and includes all defaults |
| Utils.CompareJsonReflexive | common/rootfs/app/utils.py:16-23 | every value compares equal to itself |
| Utils.CompareJsonSymmetric | common/rootfs/app/utils.py:16-23 | the comparison is symmetric |
| Utils.CompareJsonTransitive | common/rootfs/app/utils.py:16-23 | the comparison is transitive |
| Utils.CompareJsonIgnoresKeyOrder | common/rootfs/app/utils.py:19-20 | dicts with the same members in another order compare equal (`sort_keys=True`) |
| Utils.CompareJsonListsPositional | common/rootfs/app/utils.py:19-21 | equal lists have the same length and equal items position by position |
| Utils.CompareJsonContent | common/rootfs/app/utils.py:16-23 | equality after `json.dumps(..., sort_keys=True)`: lists position by position, dicts member by member whatever their order; the CompareJson lemmas above state its properties |
| Host.ReadText | common/rootfs/app/web_config.py:264-266 | reading text succeeds exactly on an existing text file and gives its contents |
| Host.LoadJson | common/rootfs/app/frpc_service.py:108-109 | `json.load` succeeds exactly on a stored document and gives it back |
| Host.Touch | common/rootfs/app/frpc_service.py:58 | `open(path, 'a')` creates the file if missing and changes no existing file |
| Host.RemoveIfExists | common/rootfs/app/frpc_service.py:225 | `if exists: unlink` removes exactly that path |
| Host.App.WriteFile | common/rootfs/app/frpc_service.py:165-166 | the file gets the new contents; nothing else changes |
| Host.App.WriteAll | common/rootfs/app/web_config.py:654-660 | the files a script wrote replace the earlier ones |
| Host.App.CopyFile | common/rootfs/app/frpc_service.py:149 | the target gets the source's contents |
| Host.App.Unlink | common/rootfs/app/frpc_service.py:215 | the path is removed |
| Host.App.OpenForAppend | common/rootfs/app/frpc_service.py:58 | as Touch, on the machine |
| Host.App.Spawn | common/rootfs/app/frpc_service.py:59-64 | a successful Popen adds one process with that command line |
| Host.App.Kill | common/rootfs/app/frpc_service.py:76-80 | the process is gone |
| Host.App.SetHandle | common/rootfs/app/frpc_service.py:82 | `FRPC_PROCESS` is set |
| Host.App.KillMatching | common/rootfs/app/frpc_service.py:216 | `pkill -f` sends SIGTERM: exactly the matching processes that are not survivors are gone |
| Host.App.constructor | common/rootfs/app/frpc_service.py:18 | the machine starts in the given state |
| FrpcService.IsRunning | common/rootfs/app/frpc_service.py:20-25 | `check_frpc_running()`: the handle is set and its child is still in the process table; StartFrpcStep, StopFrpcStep and RestartFrpcStep state what the operations do to it |
| FrpcService.FirstExistingIndex | common/rootfs/app/frpc_service.py:44-48 | the index of the first existing candidate, every earlier one missing |
| FrpcService.FirstExisting | common/rootfs/app/frpc_service.py:44-52 | None iff no candidate exists; otherwise an existing path |
| FrpcService.FindBinary | common/rootfs/app/frpc_service.py:37-48 | the search loop with `break` returns the first existing path of the fixed order |
| FrpcService.SearchPaths | common/rootfs/app/frpc_service.py:37-42 | the four candidates in order: the bundled binary, /usr/local/bin/frpc, /usr/bin/frpc, then `which("frpc")` or /usr/bin/frpc |
| FrpcService.StartFrpcStep | common/rootfs/app/frpc_service.py:27-69 | start succeeds iff frpc.toml exists, some binary is found and Popen succeeds; on failure the handle and processes are untouched |
| FrpcService.StartFrpc | common/rootfs/app/frpc_service.py:27-69 | the imperative start agrees with StartFrpcStep |
| FrpcService.StartFrpcUsesFirstBinary | common/rootfs/app/frpc_service.py:37-65 | a successful start runs the first existing binary with frpc.toml and records its pid as the handle, which then counts as running |
| FrpcService.StartWhileRunningOrphansChild | common/rootfs/app/frpc_service.py:27-66 | starting while a child runs leaves the old child alive and no longer tracked |
| FrpcService.StopFrpcStep | common/rootfs/app/frpc_service.py:71-84 | a live child gets terminate (then kill if that fails) and the handle is cleared; otherwise nothing changes; never running afterwards |
| FrpcService.StopFrpc | common/rootfs/app/frpc_service.py:71-84 | returns True in every case and agrees with StopFrpcStep |
| FrpcService.RestartFrpcStep | common/rootfs/app/frpc_service.py:86-95 | restart reports True even when the start fails |
| FrpcService.RestartFrpc | common/rootfs/app/frpc_service.py:86-95 | the imperative restart agrees with RestartFrpcStep |
| FrpcService.RestartReplacesChild | common/rootfs/app/frpc_service.py:86-95 | after restart a child runs iff the start after the stop succeeded, and the old child is gone |
| FrpcService.CloudEntriesOf | common/rootfs/app/frpc_service.py:113-128 | one rule gives at most one cloud entry |
| FrpcService.CloudEntries | common/rootfs/app/frpc_service.py:111-128 | the `cloud_data` list, one rule at a time; CloudEntriesAppend and CloudEntriesShape state its properties |
| FrpcService.CloudEntriesAppend | common/rootfs/app/frpc_service.py:111-128 | conversion distributes over concatenation, so order is preserved |
| FrpcService.CloudEntriesShape | common/rootfs/app/frpc_service.py:111-128 | the output is no longer than the input, and every entry is `{localIp: 127.0.0.1, localPort, remotePort, type: tcp}` with non-empty ports |
| FrpcService.CloudEntryOfIntPorts | common/rootfs/app/frpc_service.py:115-126 | a rule with integer ports becomes the entry with their decimal texts |
| FrpcService.CloudEntryMissingPort | common/rootfs/app/frpc_service.py:115-118 | a missing bindPort drops the rule; an explicit null becomes remotePort "None" |
| FrpcService.ConvertStep | common/rootfs/app/frpc_service.py:98-136 | succeeds iff the input is a stored, iterable document, and then writes exactly the converted list; on failure nothing changes |
| FrpcService.ConvertToCloudFormat | common/rootfs/app/frpc_service.py:98-136 | the conversion loop agrees with ConvertStep |
| FrpcService.WithTemplate | common/rootfs/app/frpc_service.py:145-149 | a missing rule file is copied from the template when there is one, and otherwise nothing changes |
| FrpcService.RegisterFrpcStep | common/rootfs/app/frpc_service.py:138-176 | registration succeeds iff the rule file (after the template copy) loads and the cloud returns non-empty content, and only then frpc.toml is overwritten |
| FrpcService.RegisterFrpcProxy | common/rootfs/app/frpc_service.py:138-176 | the imperative registration agrees with RegisterFrpcStep |
| FrpcService.RegisterFailureKeepsConfig | common/rootfs/app/frpc_service.py:162-172 | a failed registration leaves an existing frpc.toml as it was |
| FrpcService.RecordedPid | common/rootfs/app/frpc_service.py:184 | a pid is read only from an existing PID file |
| FrpcService.CheckTmpFrpcRunning | common/rootfs/app/frpc_service.py:180-187 | running iff the PID file exists, parses as an int, and that process is alive |
| FrpcService.TmpRunning | common/rootfs/app/frpc_service.py:180-187 | running means the PID file holds an int and `kill -0` finds that process; CheckTmpFrpcRunning computes it |
| FrpcService.TmpBinary | common/rootfs/app/frpc_service.py:193-199 | the bundled binary if present, else the `which` result or /usr/bin/frpc if that exists |
| FrpcService.StartTmpStep | common/rootfs/app/frpc_service.py:189-206 | start succeeds iff the temporary config and a binary exist and Popen succeeds, and then the new process is recorded in the PID file; the main handle is never touched |
| FrpcService.StartTmpFrpc | common/rootfs/app/frpc_service.py:189-206 | the imperative start agrees with StartTmpStep |
| FrpcService.StartTmpThenRunning | common/rootfs/app/frpc_service.py:184-204 | after a successful start the PID file holds the new pid and the check reports running |
| FrpcService.StripDec | common/rootfs/app/frpc_service.py:184 | a written pid has no surrounding white space |
| FrpcService.Sweep | common/rootfs/app/frpc_service.py:216 | the sweep keeps exactly the processes the pattern does not match and the survivors, unchanged |
| FrpcService.TermOne | common/rootfs/app/frpc_service.py:213-214 | `kill <pid>`, with `kill -9` only when `kill` fails: the pid is gone unless it is a survivor, which stays |
| FrpcService.TmpPattern | common/rootfs/app/frpc_service.py:216 | the `pkill -f` regular expression: "frpc -c", any text, "frpc_tmp", any one character, "toml" |
| FrpcService.TmpClientMatchesPattern | common/rootfs/app/frpc_service.py:216 | every `.../frpc -c .../frpc_tmp.toml` command line matches `frpc -c.*frpc_tmp.toml` |
| FrpcService.SweepSparesOthers | common/rootfs/app/frpc_service.py:216 | a process whose command line has no `frpc_tmp` followed by one character and `toml` survives the sweep unchanged |
| FrpcService.NoUnderscoreIsSpared | common/rootfs/app/frpc_service.py:216 | a command line without `_` does not match the pattern, since the `_` of `frpc_tmp` is literal |
| FrpcService.DashedConfigIsSpared | common/rootfs/app/frpc_service.py:216 | `/usr/bin/frpc -c /x/frpc-tmp.toml` does not match the pattern |
| FrpcService.StopTmpStep | common/rootfs/app/frpc_service.py:208-219 | with a readable PID file: SIGTERM to that pid, delete the file, sweep; without one: only sweep, returning True; an unreadable PID file makes it return False having done nothing; survivors keep running |
| FrpcService.StopTmpFrpc | common/rootfs/app/frpc_service.py:208-219 | the imperative stop agrees with StopTmpStep |
| FrpcService.StopTmpEndsClients | common/rootfs/app/frpc_service.py:208-219 | after a successful stop the check reports no temporary client, and a temporary client that SIGTERM ends is gone, whatever pid it had |
| FrpcService.StopTmpLeavesSurvivors | common/rootfs/app/frpc_service.py:211-216 | a process that outlives SIGTERM is still running, unchanged, after the stop, although a successful stop makes the check report no temporary client; the stop starts nothing |
| FrpcService.CleanupStep | common/rootfs/app/frpc_service.py:221-230 | cleanup always reports True and removes the temporary config, PID and visitor-code files (and the log in the legacy layout) |
| FrpcService.CleanupTmpFrpcFiles | common/rootfs/app/frpc_service.py:221-230 | the imperative cleanup agrees with CleanupStep |
| FrpcService.CleanupRemovesCorruptPidFile | common/rootfs/app/frpc_service.py:221-227 | with an unparsable PID file the stop does nothing, but cleanup still deletes the file |
| FrpcService.CloudEntry | common/rootfs/app/frpc_service.py:119-124 | the cloud entry of one rule: localIp 127.0.0.1, the two ports as text, type tcp; CloudEntryOfIntPorts and CloudEntriesShape state what the conversion builds from it |
| FrpcService.RegisterTmpStep | common/rootfs/app/frpc_service.py:232-271 | success iff the rules load and the cloud returns content; then frpc_tmp.toml is written, and the visitor code only if non-empty; on failure neither file is written |
| FrpcService.RegisterTmpProxy | common/rootfs/app/frpc_service.py:232-271 | the imperative registration agrees with RegisterTmpStep |
| WebRoutes.SkipSpaces | common/rootfs/app/web_routes.py:270 | `\s*` consumes the longest run of white space |
| WebRoutes.MatchAt | common/rootfs/app/web_routes.py:270 | `remotePort\s*=\s*(\d+)` matches at a position: the key, spaces, '=', spaces, then a digit |
| WebRoutes.SkipDigits | common/rootfs/app/web_routes.py:270 | `\d+` consumes the longest run of digits |
| WebRoutes.CaptureStart | common/rootfs/app/web_routes.py:270 | the captured digits start after the key, the spaces and `=` |
| WebRoutes.MatchEnd | common/rootfs/app/web_routes.py:270 | a match ends after its captured digits |
| WebRoutes.Capture | common/rootfs/app/web_routes.py:270 | every captured port is a non-empty digit string |
| WebRoutes.KeyChars | common/rootfs/app/web_routes.py:270 | an occurrence of `remotePort` starts with "re" |
| WebRoutes.NoMatchInsideMatch | common/rootfs/app/web_routes.py:270 | no match starts inside another, so `findall` scanning is unambiguous |
| WebRoutes.FindAllMembers | common/rootfs/app/web_routes.py:270 | `findall` from a position returns exactly the captures of matches starting there or later |
| WebRoutes.FindAll | common/rootfs/app/web_routes.py:270 | `re.findall` scanning left to right and resuming after each match; FindAllMembers and NoMatchInsideMatch state its result |
| WebRoutes.ActualPorts | common/rootfs/app/web_routes.py:270 | `set(re.findall(...))`; ActualPortsExact states its members |
| WebRoutes.ActualPortsExact | common/rootfs/app/web_routes.py:270 | the actual port set is exactly the set of captures, as strings |
| WebRoutes.ExpectedPort | common/rootfs/app/web_routes.py:260-261 | each rule's `str(item.get('bindPort'))`; defined exactly on dicts |
| WebRoutes.ExpectedPortsDefined | common/rootfs/app/web_routes.py:258-261 | building the expected set fails iff some rule is not a dict |
| WebRoutes.SomeRuleNamesSnoc | common/rootfs/app/web_routes.py:259-261 | appending one rule adds exactly that rule's port text |
| WebRoutes.ExpectedPortsMembers | common/rootfs/app/web_routes.py:258-261 | the expected set is exactly the non-empty port texts of the rules |
| WebRoutes.ExpectedPorts | common/rootfs/app/web_routes.py:258-261 | the `expected_ports` loop, or the exception of the first rule that is not a dict; ExpectedPortsDefined and ExpectedPortsMembers state it |
| WebRoutes.MissingBindPortNeverMatches | common/rootfs/app/web_routes.py:260-270 | a rule without bindPort contributes "None", which is never an actual port |
| WebRoutes.DriftedIff | common/rootfs/app/web_routes.py:263-276 | with both files present and loadable, drift is detected iff some expected port is missing from the document; extra ports never count |
| WebRoutes.Diagnose | common/rootfs/app/web_routes.py:235-283 | the five outcomes of the check: toml missing, rules missing, consistent, drifted, or the exception that suppresses registration; DriftedIff states when it drifts |
| WebRoutes.NeedsRegister | common/rootfs/app/web_routes.py:240-276 | registration is needed when frpc.toml or the rules are missing, or on drift |
| WebRoutes.EnsureStep | common/rootfs/app/web_routes.py:233-288 | registers exactly on a missing toml, missing rules or drift; returns False only when that registration fails; a failing check does not register |
| WebRoutes.CollectExpectedPorts | common/rootfs/app/web_routes.py:258-261 | the loop builds the expected set, or stops at the rule that raises |
| WebRoutes.ExpectedPortsRaise | common/rootfs/app/web_routes.py:259-261 | an exception part way through is the exception of the whole loop |
| WebRoutes.EnsureConfigConsistency | common/rootfs/app/web_routes.py:233-288 | the imperative check agrees with EnsureStep |
| WebRoutes.ServiceStartStep | common/rootfs/app/web_routes.py:292-299 | start succeeds iff the check and then the start succeed; after a failed check nothing else happens |
| WebRoutes.ServiceStart | common/rootfs/app/web_routes.py:292-299 | the handler agrees with ServiceStartStep |
| WebRoutes.ServiceStopStep | common/rootfs/app/web_routes.py:303-307 | stop runs no check and always succeeds |
| WebRoutes.ServiceStop | common/rootfs/app/web_routes.py:303-307 | the handler agrees with ServiceStopStep |
| WebRoutes.ServiceRestartStep | common/rootfs/app/web_routes.py:311-318 | restart succeeds iff the check succeeds |
| WebRoutes.ServiceRestart | common/rootfs/app/web_routes.py:311-318 | the handler agrees with ServiceRestartStep |
| WebRoutes.GatingProtectsProcesses | common/rootfs/app/web_routes.py:290-318 | a failed check leaves the processes and handle alone; a consistent configuration goes straight to start or restart |
| WebRoutes.CleanRule | common/rootfs/app/web_routes.py:337-344 | a kept rule is a dict |
| WebRoutes.CleanRuleFields | common/rootfs/app/web_routes.py:338-341 | a kept rule has int ports equal to `int()` of the submitted ones, and every other key is unchanged |
| WebRoutes.CleanRulesAppend | common/rootfs/app/web_routes.py:335-344 | cleaning distributes over concatenation, so order is preserved |
| WebRoutes.CleanRulesShape | common/rootfs/app/web_routes.py:335-344 | no more rules come out than went in, each with integer localPort and bindPort |
| WebRoutes.SetFieldExisting | common/rootfs/app/web_routes.py:340-341 | assigning a key its current value changes nothing |
| WebRoutes.CleanRuleIdempotent | common/rootfs/app/web_routes.py:337-344 | cleaning a cleaned rule gives it back |
| WebRoutes.CleanRulesIdempotent | common/rootfs/app/web_routes.py:335-344 | cleaning a cleaned list gives it back |
| WebRoutes.CleanRules | common/rootfs/app/web_routes.py:335-344 | `cleaned_main_config`: the rules that convert, converted, in order; CleanRulesAppend, CleanRulesShape and CleanRulesIdempotent state it |
| WebRoutes.CleanRuleList | common/rootfs/app/web_routes.py:335-344 | the loop computes CleanRules |
| WebRoutes.SaveMainStep | common/rootfs/app/web_routes.py:333-356 | cleaned rules are stored, then the main tunnel restarts exactly when re-registration succeeds |
| WebRoutes.SaveMain | common/rootfs/app/web_routes.py:333-356 | the imperative save agrees with SaveMainStep |
| WebRoutes.SaveMainEffects | common/rootfs/app/web_routes.py:346-356 | the stored rules are the cleaned ones, and a failed sync leaves processes and handle alone |
| WebRoutes.SaveTmpStep | common/rootfs/app/web_routes.py:363-378 | a non-iterable temporary list writes nothing; otherwise the cleaned list is stored |
| WebRoutes.SaveTmp | common/rootfs/app/web_routes.py:363-378 | the imperative save agrees with SaveTmpStep |
| WebRoutes.FlagRoundTrip | common/rootfs/app/web_routes.py:381-387 | the flag written reads back as the truthiness of the submitted value |
| WebRoutes.OldFlag | common/rootfs/app/web_routes.py:382-384 | the old flag is true exactly when the file exists and its stripped text is "true" |
| WebRoutes.FlagText | common/rootfs/app/web_routes.py:386-387 | the text written is "true" for a truthy value and "false" otherwise |
| WebRoutes.RoutesTmpAction | common/rootfs/app/web_routes.py:390-411 | enable only for a truthy flag, disable only for a falsy one, refresh only while on with a non-empty cleaned list |
| WebRoutes.RoutesTmpActionOnBools | common/rootfs/app/web_routes.py:390-411 | off->on enables, on->off disables, on->on refreshes with a non-empty list, otherwise nothing |
| WebRoutes.RoutesTmpActionOnOtherFlags | common/rootfs/app/web_routes.py:390 | a non-bool, non-int flag never equals the stored bool, so it always enables or disables |
| WebRoutes.ApplyTmp | common/rootfs/app/web_routes.py:390-411 | the imperative transition agrees with ApplyTmpStep |
| WebRoutes.ApplyTmpStep | common/rootfs/app/web_routes.py:389-411 | enable registers then starts; disable cleans up; refresh registers, then stops and starts; the message as the handler builds it; TmpStartsOnlyAfterRegistration and DisableRemovesTmpFiles state its effects |
| WebRoutes.TmpStartsOnlyAfterRegistration | common/rootfs/app/web_routes.py:393-411 | if the temporary registration fails, no process is started or stopped |
| WebRoutes.DisableRemovesTmpFiles | common/rootfs/app/web_routes.py:401-404 | turning remote assistance off removes the temporary config, PID file and visitor code |
| WebRoutes.SaveConfig | common/rootfs/app/web_routes.py:322-413 | the handler agrees with SaveConfigStep |
| WebRoutes.SaveConfigStep | common/rootfs/app/web_routes.py:322-413 | the intended handler: no data, then the main save, the temporary save, the flag and the temporary action; SaveConfigOutcome states its answer |
| WebRoutes.SaveConfigOutcome | common/rootfs/app/web_routes.py:333-413 | a non-empty dict request is answered; it succeeds iff the main list is iterable, and a failed main save changes nothing |
| WebRoutes.EnsureAsWrittenNeverRegisters | common/rootfs/app/web_routes.py:242-288 | as written, every path that would register raises NameError first; only a consistent configuration returns |
| WebRoutes.EnsureAsWritten | common/rootfs/app/web_routes.py:233-288 | the check as written: returns only when consistent, and raises NameError wherever the intended one logs |
| WebRoutes.MissingTomlFinding | common/rootfs/app/web_routes.py:242-244 | with frpc.toml missing, the intended check registers and writes it, while the code as written raises NameError |
| WebRoutes.SaveConfigNameErrorFinding | common/rootfs/app/web_routes.py:358-360 | for `{"mainConfig": 5}` the intended handler answers with the error, while the code as written raises NameError |
| WebRoutes.SaveConfigAsWritten | common/rootfs/app/web_routes.py:358-378 | the handler as written: a non-iterable main list, or a non-iterable temporary list after the main save, raises NameError |
| WebRoutes.SaveConfigTmpNameErrorFinding | common/rootfs/app/web_routes.py:376-378 | for `{"tmpConfig": 5}` the intended handler saves the main rules and answers success; as written it raises NameError after the main save |
| WebConfig.LegacyGenerateBindPortAgrees | common/rootfs/app/web_config.py:200-227 | the copy without try agrees with the utils.py allocator on convertible ports, and raises where that one returns None |
| WebConfig.LegacyGenerateBindPort | common/rootfs/app/web_config.py:200-227 | the copy without try: every exception of `int(local_port)` propagates |
| WebConfig.LinkRulesCompared | common/rootfs/app/web_config.py:229-231 | the copy's `!= 22` agrees on integers but gives true for the text "22" |
| WebConfig.LegacyLinkValue | common/rootfs/app/web_config.py:229-231 | the copy's `local_port != 22`, comparing the value without `int()` |
| WebConfig.LoadConfig | common/rootfs/app/web_config.py:233-255 | copies the default when missing; a missing or unloadable file reads as [] |
| WebConfig.LoadConfigAfterSave | common/rootfs/app/web_config.py:243-260 | a saved configuration loads back unchanged |
| WebConfig.SaveRemoteAssistance | common/rootfs/app/web_config.py:285-288 | writes a text flag file and changes no other file |
| WebConfig.RemoteAssistanceRoundTrip | common/rootfs/app/web_config.py:262-288 | a save followed by a load gives the truthiness saved, and a missing file reads false |
| WebConfig.LoadRemoteAssistance | common/rootfs/app/web_config.py:262-268 | the flag is on exactly when the file exists and its stripped, lower-cased text is "true"; RemoteAssistanceRoundTrip states it |
| WebConfig.LoadVisitorCode | common/rootfs/app/web_config.py:270-275 | a missing file gives "" |
| WebConfig.SaveVisitorCode | common/rootfs/app/web_config.py:277-283 | the code file exists afterwards iff the code is non-empty; no other file changes |
| WebConfig.VisitorCodeRoundTrip | common/rootfs/app/web_config.py:270-283 | loading after saving a code gives it trimmed; after saving "" it gives "" |
| WebConfig.Find | common/rootfs/app/web_config.py:667 | finds the first occurrence of the marker, or reports that none exists |
| WebConfig.FindFrom | common/rootfs/app/web_config.py:667 | the same, searching from a position |
| WebConfig.AfterFirst | common/rootfs/app/web_config.py:667 | `line.split('Visitor Code:')[1]`: the text after the first marker up to the next one |
| WebConfig.CodeOnLine | common/rootfs/app/web_config.py:666-668 | the stripped code of a line with the marker, "" for a line without |
| WebConfig.FirstCode | common/rootfs/app/web_config.py:664-670 | the code of the first line that carries a non-empty one; FirstCodeIsFirst states it |
| WebConfig.FirstCodeIsFirst | common/rootfs/app/web_config.py:664-670 | the extracted code is "" iff no line carries a non-empty code, and otherwise is that of the first such line |
| WebConfig.ExtractVisitorCode | common/rootfs/app/web_config.py:664-670 | the loop with `break` computes FirstCode |
| WebConfig.LegacyRegisterTmpStep | common/rootfs/app/web_config.py:647-684 | success iff the script exits 0 and a code comes from the output or the stored file loads; a failing script returns its stderr, else stdout |
| WebConfig.LegacyRegisterTmpProxy | common/rootfs/app/web_config.py:647-684 | the imperative registration agrees with LegacyRegisterTmpStep |
| WebConfig.RegisteredCodeIsStored | common/rootfs/app/web_config.py:672-677 | a returned non-empty code is the one stored in the visitor-code file |
| WebConfig.LegacyStopStep | common/rootfs/app/web_config.py:411-436 | True iff stop.sh exists and exits with status 0 |
| WebConfig.LegacyStopFrpc | common/rootfs/app/web_config.py:411-436 | the imperative stop agrees with LegacyStopStep |
| WebConfig.LegacyStartStep | common/rootfs/app/web_config.py:493-518 | start succeeds iff frpc.toml and /usr/local/bin/frpc exist and Popen succeeds; only then a process and handle are recorded |
| WebConfig.LegacyStartFrpc | common/rootfs/app/web_config.py:493-518 | the imperative start agrees with LegacyStartStep |
| WebConfig.LegacyRestartStep | common/rootfs/app/web_config.py:520-542 | True iff stop and then start succeed; a failed stop starts nothing |
| WebConfig.LegacyRestartFrpc | common/rootfs/app/web_config.py:520-542 | the imperative restart agrees with LegacyRestartStep |
| WebConfig.ValidateAccepts | common/rootfs/app/web_config.py:957-970 | accepted iff 1..10 main rules and, with remote assistance on, 1..10 temporary rules; the temporary list is ignored when off |
| WebConfig.Validate | common/rootfs/app/web_config.py:957-970 | the four checks in the source's order with their messages; `len()` of a value without one raises; ValidateAccepts states when a request passes |
| WebConfig.ProcessRule | common/rootfs/app/web_config.py:981-992 | a processed rule has exactly the keys serviceName, localPort, bindPort, link |
| WebConfig.ProcessRuleCases | common/rootfs/app/web_config.py:983-991 | negative ports raise; 0..9999 get prefix*10000 + p; larger ports keep the submitted bindPort; link is p != 22 |
| WebConfig.ProcessRulesPointwise | common/rootfs/app/web_config.py:980-1008 | one processed rule per submitted rule, in order |
| WebConfig.ProcessRuleList | common/rootfs/app/web_config.py:980-1008 | the loops compute ProcessRules |
| WebConfig.ProcessRules | common/rootfs/app/web_config.py:980-1008 | `processed_*_config`, or the exception that ends the request; ProcessRulesPointwise states it |
| WebConfig.MapRules | common/rootfs/app/web_config.py:982-1031 | a loop `for item in items: out.append(f(item))`: the first exception ends it, and a loop that completes has one result per rule |
| WebConfig.MapRulesRaise | common/rootfs/app/web_config.py:982-1008 | in the processing and normalisation loops, a rule that raises ends the whole loop with its exception |
| WebConfig.MapRulesPointwise | common/rootfs/app/web_config.py:982-1008 | a loop that completes gives one result per rule, in order |
| WebConfig.MapRulesFixed | common/rootfs/app/web_config.py:1017-1031 | a loop over rules that are each their own result gives the list back |
| WebConfig.NormalizeOldRule | common/rootfs/app/web_config.py:1017-1031 | only dict rules normalise; `.get` on anything else raises AttributeError; NormalizeOldRuleCases gives the normalised fields |
| WebConfig.NormalizeOldRuleCases | common/rootfs/app/web_config.py:1017-1031 | a stored dict normalises unless its bindPort is falsy and its localPort does not convert or is negative; the name and localPort are kept, a truthy bindPort is kept, a falsy one becomes 30000 + port below 10000 and 0 above, and a missing or null link becomes `localPort != 22` |
| WebConfig.NormalizeRules | common/rootfs/app/web_config.py:1016-1031 | `normalized_old_main_config`, or the exception of the first rule that raises; ResubmissionIsUnchanged states its fixed point |
| WebConfig.NormalizeRuleList | common/rootfs/app/web_config.py:1016-1031 | the loop computes NormalizeRules |
| WebConfig.RuleLookups | common/rootfs/app/web_config.py:1018-1029 | `get` on a processed rule finds its four fields |
| WebConfig.NormalizeProcessedRule | common/rootfs/app/web_config.py:1017-1031 | a processed rule with a truthy or zero bindPort normalises to itself |
| WebConfig.NormalizeStoredRule | common/rootfs/app/web_config.py:1017-1031 | a four-key rule with a non-negative port, a truthy bindPort (or 0 beside a port of 10000 or more) and link = port != 22 is its own normal form |
| WebConfig.ResubmissionIsUnchanged | common/rootfs/app/web_config.py:981-1033 | normalising the stored result of processing gives that result again |
| WebConfig.ResubmissionLeavesMain | common/rootfs/app/web_config.py:1033-1064 | re-submitting the stored rules is "unchanged", so the main tunnel is neither restarted nor started |
| WebConfig.LegacyMainAction | common/rootfs/app/web_config.py:1044-1064 | nothing iff unchanged; restart iff changed and running; otherwise start |
| WebConfig.LegacyTmpAction | common/rootfs/app/web_config.py:1067-1098 | enable and disable only when the flag differs from the stored one; refresh only when it stays on and the list changed |
| WebConfig.LegacyTmpActionOnBools | common/rootfs/app/web_config.py:1067-1098 | off->on enables, on->off disables, on->on refreshes only on a changed list, off->off does nothing |
| WebConfig.TmpPoliciesCompared | common/rootfs/app/web_config.py:1082-1084 | the two generations agree except while remote assistance stays on: changed list here, non-empty list in web_routes.py |
| WebConfig.ApplyMain | common/rootfs/app/web_config.py:1044-1064 | the imperative main action agrees with ApplyMainStep |
| WebConfig.ApplyMainStep | common/rootfs/app/web_config.py:1046-1064 | restart or start the main tunnel as decided, with the source's messages |
| WebConfig.ApplyLegacyTmp | common/rootfs/app/web_config.py:1067-1100 | the imperative transition agrees with ApplyLegacyTmpStep, whose effects LegacyTmpStartsOnlyAfterRegistration states |
| WebConfig.ApplyLegacyTmpStep | common/rootfs/app/web_config.py:1067-1100 | enable registers then starts; disable cleans up; refresh registers, then stops and starts; LegacyTmpStartsOnlyAfterRegistration states its effects |
| WebConfig.LegacyTmpStartsOnlyAfterRegistration | common/rootfs/app/web_config.py:1067-1098 | no temporary action touches the main handle; a failed registration answers failure and starts or stops no process; a successful enable or refresh returned a visitor code after a successful registration |
| WebConfig.LoadConfigFile | common/rootfs/app/web_config.py:243-255 | the imperative load agrees with LoadConfig and touches no process |
| WebConfig.ProcessBothLists | common/rootfs/app/web_config.py:980-1008 | processes both lists as ProcessBoth does |
| WebConfig.ProcessBoth | common/rootfs/app/web_config.py:980-1008 | the main list with prefix 3, then the temporary list with prefix 4 |
| WebConfig.Reconcile | common/rootfs/app/web_config.py:1010-1100 | saving, normalising, comparing and acting agree with ReconcileStep |
| WebConfig.StoreSubmissionFiles | common/rootfs/app/web_config.py:1011-1013 | the three writes store both processed lists and the flag |
| WebConfig.StoreSubmission | common/rootfs/app/web_config.py:1011-1013 | both processed lists are stored, and the flag reads back as the truthiness submitted |
| WebConfig.ReconcileStep | common/rootfs/app/web_config.py:1010-1100 | store the submission, then act on it |
| WebConfig.ActStep | common/rootfs/app/web_config.py:1016-1100 | normalise the old main list, compare, then the main action and the temporary action; ResubmissionLeavesMain states its main-tunnel decision |
| WebConfig.Act | common/rootfs/app/web_config.py:1016-1100 | normalising, comparing and acting agree with ActStep |
| WebConfig.SaveValid | common/rootfs/app/web_config.py:972-1100 | the part after validation agrees with SaveValidStep |
| WebConfig.SaveValidStep | common/rootfs/app/web_config.py:972-1100 | load both old lists (copying defaults), process the submission, then reconcile |
| WebConfig.LegacySaveConfigs | common/rootfs/app/web_config.py:951-1100 | the handler after the login check agrees with LegacySaveStep |
| WebConfig.LegacySaveStep | common/rootfs/app/web_config.py:951-1100 | the handler: a body that is not a dict raises, a rejected request answers 400, a valid one is saved; LegacySaveStores states the rejection |
| WebConfig.LegacySaveStores | common/rootfs/app/web_config.py:957-970 | a rejected request answers 400 and changes nothing |
| Device.PrimaryMac | common/rootfs/app/device.py:8-29 | a non-empty result is the body's "mac" from an HTTP 200 reply, truthy and of length 17; every failure gives "" |
| Device.MacLengthCheck | common/rootfs/app/device.py:19-23 | a MAC text is accepted exactly when it has 17 characters, and only on status 200 |
| Device.RemoveColons | common/rootfs/app/device.py:47 | `replace(':', '')` leaves no colon, and only input characters |
| Device.Normalize | common/rootfs/app/device.py:47 | the normalised MAC has no colons and no upper-case letters |
| Device.NormalizeGroups | common/rootfs/app/device.py:47 | a colon-separated MAC normalises to its groups run together, lower-cased |
| Device.RemoveColonsJoin | common/rootfs/app/device.py:47 | removing colons from groups joined by ':' gives the groups run together |
| Device.RemoveColonsAppend | common/rootfs/app/device.py:47 | colon removal distributes over concatenation |
| Device.PadId | common/rootfs/app/device.py:55-59 | the identifier has length max(32, len(mac)), ends with the MAC and is '0' before it |
| Device.GetDeviceId | common/rootfs/app/device.py:31-69 | the imperative lookup agrees with GetDeviceIdStep and touches no process |
| Device.GetDeviceIdStep | common/rootfs/app/device.py:31-69 | the lookup: a stored identifier, else one generated from the MAC, else RuntimeError; StoredIdWins, NoMacNoId and GeneratedId state its cases |
| Device.StoredIdWins | common/rootfs/app/device.py:37-42 | a non-empty stored identifier is returned lower-cased whatever the API says, and nothing is written |
| Device.NoMacNoId | common/rootfs/app/device.py:46-52 | with no stored identifier and no MAC the call raises RuntimeError and stores nothing |
| Device.GeneratedId | common/rootfs/app/device.py:54-69 | a generated identifier has the padded form, is stored when the write succeeds, and is returned either way |
| Device.GeneratedIdIsStable | common/rootfs/app/device.py:37-69 | a 17-character MAC without white space gives a 32-character identifier that the next call returns unchanged without asking the API |

## Left out

- Flask routing, sessions, login checks, templates and request logging are left out. So are the heartbeat, `ieg_auth`, `enc_password` and the cloud client `register_proxy_to_cloud`. The cloud client is an oracle `Outcome<CloudReply>`.
- Logging (`logger`, `syslog` in web_config.py) is a no-op. `time.sleep` and every timeout are left out.
- Processes are a table from pid to command line. `poll()` is "pid in the table". `kill -0` is the same test. `terminate` is decided by `exitsOnTerm`, and the SIGTERM of the temporary stop's `kill` and `pkill` by `tmpSurvivors`. `kill -9` runs only when `kill` fails, which happens only for a pid that no longer exists, so it ends nothing.
- FrpcService.RegisterFrpcStep: a failed write of frpc.toml is not modelled. The source then returns False with the file possibly truncated; the model always writes it.
- FrpcService.StartTmpStep: a failed write of frpc_tmp.pid is not modelled. The source then returns False with the new child running and unrecorded; the model always records it.
- FrpcService.RegisterTmpStep: failed writes of frpc_tmp.toml and of the visitor-code file are not modelled. The source then returns False with the exception text, and frpc_tmp.toml may already be written; the model always writes both.
- `pkill -f` matches the command-line pattern `frpc -c.*frpc_tmp.toml` as a regular expression: the `_` is literal and only the `.` before `toml` matches any character. The pattern is applied to every process, the manager's own included. Command lines are single lines, so `.*` not crossing a newline does not arise.
- Signals to pids that are not children, and `kill` with pid <= 0, are not modelled.
- `json.dump`/`json.load` are abstracted: a stored `Doc` reads back as the same value.
  - Reading a `Doc` as text, or loading a `Text` file, is a failure. The real code would see the serialised text, and a `Text` file holding JSON would load.
  - This matters only for files that are written by one side and read by the other, which the code does not do.
- JSON floats are not modelled.
- Exception messages (`str(e)`) are the exception's kind.
- `strip()` uses ASCII and Latin-1 white space, `lower()` ASCII letters only, and `\s`/`\d` in the regular expression ASCII digits and the same white space. `int()` (`PyJson.ParseInt`) accepts ASCII digits only: Python's `int("٣")` is 3, the model raises ValueError.
- PyInt: `int()` of text written with non-ASCII decimal digits (Arabic-Indic, full-width and the other Unicode digits) raises ValueError in the model, where Python returns the number. The same holds for `PyJson.ParseInt`, on which it rests. Ports and pids the modelled code converts are written by the code itself or submitted as JSON numbers.
- The effects of `stop.sh` and `common.sh` on processes are outside the model. Only their exit status, output and written files are modelled.
- The environment that `prepare_env` builds for them is modelled once, in `Utils.PrepareEnv`. The identical copy at web_config.py:393-409 is not modelled separately.
- `register_frpc_proxy` of web_config.py (438-491) runs `common.sh` and checks file modification times. It is not part of this model: `save_configs` does not call it.
- `check_frpc_running` of web_config.py (382-391) asks `systemctl`. It is the oracle `LegacyOracles.active`, although the legacy start uses `Popen`.
- The MAC fallback reads of web_config.py (300-380), `ip route` and `/sys`, are OS reads and are left out.
- Request bodies are values. The in-place `item['localPort'] = ...` of web_routes.py changes the request's own dicts, and the model returns new values instead. Aliasing between the request and the stored list is not modelled.
- `Utils.BindPortOfCases`: a negative port raises ValueError, as the code does. The model states this as an error result, not as a precondition, so the allocator is total.
- `FrpcService.StartFrpcStep` does not check whether a child is already running, because the source does not. `StartWhileRunningOrphansChild` states the consequence.
- `WebConfig.ResubmissionIsUnchanged` requires every stored bindPort to be truthy or 0. A submitted rule with localPort >= 10000 and a falsy, non-zero bindPort (null, "", false) is stored as given. It is normalised to 0 and therefore always counts as changed.
- `Device.GeneratedIdIsStable` requires a MAC without white space. A 17-character MAC ending in a space is padded with the space and read back stripped, so the identifier would change between runs.
- `Utils.CompareJsonContent` compares dict members by key in both directions. Dicts with repeated keys cannot arise from JSON decoding and are not treated specially.

## Findings

| source | as written | input that shows it | evidently intended | confidence | as-written member | corrected member |
|---|---|---|---|---|---|---|
| common/rootfs/app/web_routes.py:243 | `_ensure_config_consistency` calls `syslog.syslog`, but web_routes.py never imports `syslog`, so every path that would register raises NameError before registering | frpc.toml missing, rules present, cloud returns content | log, then register | high (not executed) | WebRoutes.EnsureAsWritten, WebRoutes.MissingTomlFinding | WebRoutes.EnsureStep |
| common/rootfs/app/web_routes.py:359 | the `except` of the main save calls `syslog.syslog`, which raises NameError instead of returning the error response | request `{"mainConfig": 5}` | answer `保存主配置失败: ...` | high (not executed) | WebRoutes.SaveConfigAsWritten, WebRoutes.SaveConfigNameErrorFinding | WebRoutes.SaveConfigStep |
| common/rootfs/app/web_routes.py:378 | the `except` of the temporary save calls `syslog.syslog`, which raises NameError after the main rules were saved and registered, instead of logging and going on | request `{"tmpConfig": 5}` | log, then save the flag and answer success | high (not executed) | WebRoutes.SaveConfigAsWritten, WebRoutes.SaveConfigTmpNameErrorFinding | WebRoutes.SaveConfigStep |
