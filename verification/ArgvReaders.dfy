/** What is read back out of a launch argv: its bind mounts (`src/container/docker-argv.ts`), its pane
    mode (`src/container/interrupt.ts`) and its network (`src/harvest/acceptance-container.ts`). */
module ArgvReaders {
  import opened Optional
  import opened StringOps
  import opened Paths
  import opened LaunchArgv

  // ------------------------------------------------------------- bind mounts

  /** A bare volume name. */
  predicate IsVolumeName(s: string) {
    s != "" && IsNameStart(s[0]) && forall i :: 0 <= i < |s| ==> IsNameChar(s[i])
  }

  function VolumeSource(spec: string): string { UpTo(spec, ':') }

  /** The value of the first field named `source` or `src`. */
  function FieldSource(fields: seq<string>): Option<string> {
    if fields == [] then None
    else
      var key := UpTo(fields[0], '=');
      if key != fields[0] && (Trim(key) == "source" || Trim(key) == "src") then Some(fields[0][|key| + 1..])
      else FieldSource(fields[1..])
  }

  function MountSource(spec: string): Option<string> { FieldSource(Split(spec, ',')) }

  function HostPath(cwd: string, source: string): seq<Path> {
    if source == "" || IsVolumeName(source) then [] else [Resolve(cwd, source)]
  }

  const VOLUME_EQ := "--volume="
  const MOUNT_EQ := "--mount="

  /** The host path that the element `a` mounts, behind the element `prev`. */
  function SourceAt(cwd: string, prev: string, a: string): seq<Path> {
    if prev == "-v" || prev == "--volume" then HostPath(cwd, VolumeSource(a))
    else if prev == "--mount" then OptionPath(cwd, MountSource(a))
    else if VOLUME_EQ <= a then HostPath(cwd, VolumeSource(a[|VOLUME_EQ|..]))
    else if MOUNT_EQ <= a then OptionPath(cwd, MountSource(a[|MOUNT_EQ|..]))
    else if "-v" <= a && |a| > 2 && !("--" <= a) then HostPath(cwd, VolumeSource(a[2..]))
    else []
  }

  function OptionPath(cwd: string, source: Option<string>): seq<Path> {
    if source.Some? then HostPath(cwd, source.value) else []
  }

  /** The mounts of `argv`, behind an element `prev`; the empty text stands for no element at all. */
  function Sources(cwd: string, prev: string, argv: seq<string>): seq<Path>
    decreases argv
  {
    if argv == [] then [] else SourceAt(cwd, prev, argv[0]) + Sources(cwd, argv[0], argv[1..])
  }

  datatype Form = ShortForm | LongForm

  method BindMountSources(cwd: string, argv: seq<string>) returns (out: seq<Path>)
    ensures out == Sources(cwd, "", argv)
  {
    hide SourceAt;
    out := [];
    for i := 0 to |argv|
      invariant out + Sources(cwd, if i == 0 then "" else argv[i - 1], argv[i..]) == Sources(cwd, "", argv)
    {
      var host := ReadElement(cwd, if i == 0 then "" else argv[i - 1], argv[i]);
      out := out + host;
      assert argv[i..][1..] == argv[i + 1..];
    }
  }

  method ReadElement(cwd: string, prev: string, a: string) returns (host: seq<Path>)
    ensures host == SourceAt(cwd, prev, a)
  {
    hide MountSource, VolumeSource, IsVolumeName, Resolve;
    var spec: Option<string>, form := None, ShortForm;
    if prev == "-v" || prev == "--volume" {
      spec := Some(a);
    } else if prev == "--mount" {
      spec, form := Some(a), LongForm;
    } else if VOLUME_EQ <= a {
      spec := Some(a[|VOLUME_EQ|..]);
    } else if MOUNT_EQ <= a {
      spec, form := Some(a[|MOUNT_EQ|..]), LongForm;
    } else if "-v" <= a && |a| > 2 && !("--" <= a) {
      spec := Some(a[2..]);
    }
    if spec.None? { return []; }
    var source := if form == ShortForm then Some(VolumeSource(spec.value)) else None;
    if form == LongForm {
      source := ReadMountSource(spec.value);
    }
    if source.None? { return []; }
    return HostPath(cwd, source.value);
  }

  method ReadMountSource(spec: string) returns (source: Option<string>)
    ensures source == MountSource(spec)
  {
    var fields := Split(spec, ',');
    for i := 0 to |fields|
      invariant FieldSource(fields) == FieldSource(fields[i..])
    {
      var key := UpTo(fields[i], '=');
      if key == fields[i] { continue; }
      if Trim(key) == "source" || Trim(key) == "src" {
        return Some(fields[i][|key| + 1..]);
      }
    }
    return None;
  }

  // -------------------------------------------------------------- pane mode

  datatype Launch = Launch(argv: seq<string>, paneMode: PaneMode, container: string)

  datatype Reading = Known(mode: PaneMode) | Unknown

  /** The element behind the first `--mode`. */
  predicate HasRpcMode(argv: seq<string>) {
    argv != []
    && if argv[0] == "--mode" then |argv| > 1 && argv[1] == "rpc" else HasRpcMode(argv[1..])
  }

  function LaunchPaneMode(launch: Launch): Reading {
    var hasTty := "-t" in launch.argv;
    var rpcMode := HasRpcMode(launch.argv);
    if launch.paneMode == Rpc && rpcMode && !hasTty then Known(Rpc)
    else if launch.paneMode == Tui && !rpcMode && hasTty then Known(Tui)
    else Unknown
  }

  datatype Plan = ByControlSocket | Signal(container: string, argv: seq<string>) | Unavailable

  function PlanInterrupt(launch: Option<Launch>): Plan {
    if launch.None? then ByControlSocket
    else
      var mode := LaunchPaneMode(launch.value);
      if mode == Known(Rpc) then ByControlSocket
      else if mode == Unknown || launch.value.container == "" then Unavailable
      else Signal(launch.value.container, ["docker", "kill", "--signal=INT", launch.value.container])
  }

  // ---------------------------------------------------------------- network

  predicate IsNetworkFlag(a: string) { a == "--network" || a == "--net" }

  function NetworkOf(argv: seq<string>): Option<string> {
    if |argv| < 2 then None
    else if IsNetworkFlag(argv[0]) then Some(argv[1])
    else NetworkOf(argv[1..])
  }

  method NetworkFromLaunchArgv(argv: seq<string>) returns (network: Option<string>)
    ensures network == NetworkOf(argv)
  {
    var i := 0;
    while i < |argv| - 1
      invariant 0 <= i <= |argv|
      invariant NetworkOf(argv) == NetworkOf(argv[i..])
    {
      if argv[i] == "--network" || argv[i] == "--net" { return Some(argv[i + 1]); }
      i := i + 1;
    }
    return None;
  }
}
