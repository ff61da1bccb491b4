/**
 * The machine the tunnel manager runs on, as far as the manager can see it:
 * a file system mapping path names to contents, a table of live processes,
 * and the manager's own handle on the main frpc child.  The path constants
 * are those of config.py for the current application.
 */
module Host {
  import opened PyJson

  /** A file's contents: plain text, or a JSON document written by `json.dump`. */
  datatype File = Text(text: string) | Doc(doc: Json)

  type Pid = int

  /** A live process, identified by its command line `<binary> -c <config>`. */
  datatype Proc = Proc(binary: string, config: string)

  function CommandLine(p: Proc): string
  {
    p.binary + " -c " + p.config
  }

  /** Everything a manager operation reads or changes. `handle` is the global
      `FRPC_PROCESS`: the pid of the last main frpc child it spawned. */
  datatype World = World(files: map<string, File>, procs: map<Pid, Proc>, handle: Option<Pid>)

  // ------------------------------------------------------------ file access

  /** `open(path).read()`: a missing file raises OSError; a JSON document is
      never read back as text by the modelled code (see README). */
  function ReadText(files: map<string, File>, path: string): (r: Outcome<string>)
    ensures r.Ok? <==> path in files && files[path].Text?
    ensures r.Ok? ==> r.value == files[path].text
  {
    if path !in files then Raise(OSError)
    else match files[path]
      case Text(t) => Ok(t)
      case Doc(_) => Raise(ValueError)
  }

  /** `json.load(open(path))`: a missing file raises OSError and text that is
      not a stored document raises ValueError (JSONDecodeError). */
  function LoadJson(files: map<string, File>, path: string): (r: Outcome<Json>)
    ensures r.Ok? <==> path in files && files[path].Doc?
    ensures r.Ok? ==> r.value == files[path].doc
  {
    if path !in files then Raise(OSError)
    else match files[path]
      case Doc(d) => Ok(d)
      case Text(_) => Raise(ValueError)
  }

  /** `open(path, 'a')`: creates an empty file if there is none. */
  function Touch(files: map<string, File>, path: string): (r: map<string, File>)
    ensures path in r && r.Keys == files.Keys + {path}
    ensures forall q :: q in files ==> r[q] == files[q]
  {
    if path in files then files else files[path := Text("")]
  }

  /** `if p.exists(): p.unlink()`. */
  function RemoveIfExists(files: map<string, File>, path: string): (r: map<string, File>)
    ensures path !in r && r.Keys == files.Keys - {path}
    ensures forall q :: q in r ==> r[q] == files[q]
  {
    files - {path}
  }

  // ------------------------------------------------------------ paths

  const ServiceDir: string := "runtime/etc"
  const FrpcToml: string := "runtime/etc/frpc.toml"
  const FrpcLog: string := "runtime/etc/frpc.log"
  const TmpToml: string := "runtime/etc/frpc_tmp.toml"
  const TmpPidFile: string := "runtime/etc/frpc_tmp.pid"
  const TmpLog: string := "runtime/etc/frpc_tmp.log"
  const BundledBinary: string := "runtime/etc/bin/frpc"
  const RegisterJson: string := "runtime/etc/register_proxy.json"
  const RegisterTmpJson: string := "runtime/etc/register_proxy_tmp.json"
  const RemoteAssistanceFile: string := "runtime/etc/remote_assistance"
  const VisitorCodeFile: string := "runtime/etc/visitor_code"
  const RegisterTemplate: string := "app/conf/register_proxy.json"
  const RegisterTmpTemplate: string := "app/conf/register_proxy_tmp.json"
  const DeviceIdFile: string := "runtime/data/device_id.txt"

  // ------------------------------------------------------------ the machine

  /** The manager process and the host it runs on. */
  class App {
    var files: map<string, File>
    var procs: map<Pid, Proc>
    var handle: Option<Pid>

    constructor (w: World)
      ensures State() == w
    {
      files, procs, handle := w.files, w.procs, w.handle;
    }

    function State(): World
      reads this
    {
      World(files, procs, handle)
    }

    /** `open(path, 'w').write(...)` or `json.dump(..., open(path, 'w'))`. */
    method WriteFile(path: string, f: File)
      modifies this
      ensures State() == old(State()).(files := old(files)[path := f])
    {
      files := files[path := f];
    }

    /** The files a script wrote, replacing any earlier contents. */
    method WriteAll(written: map<string, File>)
      modifies this
      ensures State() == old(State()).(files := old(files) + written)
    {
      files := files + written;
    }

    /** `shutil.copy(src, dst)` for an existing src. */
    method CopyFile(src: string, dst: string)
      requires src in files
      modifies this
      ensures State() == old(State()).(files := old(files)[dst := old(files)[src]])
    {
      files := files[dst := files[src]];
    }

    method Unlink(path: string)
      modifies this
      ensures State() == old(State()).(files := RemoveIfExists(old(files), path))
    {
      files := RemoveIfExists(files, path);
    }

    method OpenForAppend(path: string)
      modifies this
      ensures State() == old(State()).(files := Touch(old(files), path))
    {
      files := Touch(files, path);
    }

    /** A `Popen` that the oracle says succeeded with the given pid. */
    method Spawn(pid: Pid, p: Proc)
      modifies this
      ensures State() == old(State()).(procs := old(procs)[pid := p])
    {
      procs := procs[pid := p];
    }

    /** A signal that ends a live process (`terminate`, `kill`, `kill -9`). */
    method Kill(pid: Pid)
      modifies this
      ensures State() == old(State()).(procs := old(procs) - {pid})
    {
      procs := procs - {pid};
    }

    method SetHandle(h: Option<Pid>)
      modifies this
      ensures State() == old(State()).(handle := h)
    {
      handle := h;
    }

    /** `pkill -f <pattern>`: sends SIGTERM to every live process whose
        command line the pattern matches, which ends all but the survivors. */
    method KillMatching(pattern: Proc -> bool, survivors: set<Pid>)
      modifies this
      ensures State() == old(State()).(procs := map p | p in old(procs) && (!pattern(old(procs)[p]) || p in survivors) :: old(procs)[p])
    {
      procs := map p | p in procs && (!pattern(procs[p]) || p in survivors) :: procs[p];
    }
  }
}
