/** The mounts that pushes make, and how the mount reader spells them. */
module LaunchAgreement {
  import opened StringOps
  import opened Paths
  import opened LaunchArgv
  import opened ArgvReaders

  predicate Undashed(s: string) { s == "" || s[0] != '-' }

  predicate IsMount(a: Arg) { a.Pair? && a.name == "-v" && Undashed(a.value) }

  function ArgMounts(cwd: string, a: Arg): seq<Path> {
    if IsMount(a) then HostPath(cwd, VolumeSource(a.value)) else []
  }

  function AllMounts(cwd: string, args: seq<Arg>): seq<Path> {
    if args == [] then [] else ArgMounts(cwd, args[0]) + AllMounts(cwd, args[1..])
  }

  // ------------------------------------------------------------ single elements

  predicate IsMountFlag(a: string) { a == "-v" || a == "--volume" || a == "--mount" }

  lemma NotPrefix(p: string, s: string, k: nat)
    requires k < |p| && (k < |s| ==> s[k] != p[k])
    ensures !(p <= s)
  {
  }

  /** `a` mounts nothing wherever it stands, unless a mount flag stands before it. */
  predicate Unread(a: string) {
    && !IsMountFlag(a) && !(VOLUME_EQ <= a) && !(MOUNT_EQ <= a) && !("-v" <= a && |a| > 2 && !("--" <= a))
  }

  lemma UndashedIsUnread(v: string)
    requires Undashed(v)
    ensures Unread(v)
  {
    NotPrefix("-v", v, 0);
    NotPrefix(VOLUME_EQ, v, 0);
    NotPrefix(MOUNT_EQ, v, 0);
  }

  lemma MountIsRead(cwd: string, spec: string)
    ensures SourceAt(cwd, "-v", spec) == HostPath(cwd, VolumeSource(spec))
  {
  }

  // ------------------------------------------------------------------ host paths

  /** The host paths of a mount table, in order, without its named volumes. */
  function HostPaths(mounts: seq<Mount>): seq<Path> {
    if mounts == [] then []
    else (if mounts[0].Bind? then [Segments(mounts[0].host)] else []) + HostPaths(mounts[1..])
  }

  lemma {:induction false} HostPathsConcat(xs: seq<Mount>, ys: seq<Mount>)
    ensures HostPaths(xs + ys) == HostPaths(xs) + HostPaths(ys)
    decreases xs
  {
    if xs == [] {
      assert xs + ys == ys;
    } else {
      assert (xs + ys)[1..] == xs[1..] + ys;
      HostPathsConcat(xs[1..], ys);
    }
  }

  lemma {:induction false} AllMountsConcat(cwd: string, xs: seq<Arg>, ys: seq<Arg>)
    ensures AllMounts(cwd, xs + ys) == AllMounts(cwd, xs) + AllMounts(cwd, ys)
    decreases xs
  {
    hide ArgMounts;
    if xs == [] {
      assert xs + ys == ys;
    } else {
      assert (xs + ys)[1..] == xs[1..] + ys;
      AllMountsConcat(cwd, xs[1..], ys);
    }
  }

  lemma {:induction false} NoMounts(cwd: string, args: seq<Arg>)
    requires forall i :: 0 <= i < |args| ==> !IsMount(args[i])
    ensures AllMounts(cwd, args) == []
    decreases args
  {
    hide IsMount;
    if args != [] {
      NoMounts(cwd, args[1..]);
    }
  }

  // ------------------------------------------------------------ what mounts show

  predicate IsHostText(p: string) { p != "" && p[0] == '/' && ':' !in p }

  predicate IsReadable(m: Mount) {
    match m
    case Bind(host, _, _) => IsHostText(host)
    case Volume(name, _) => IsVolumeName(name)
  }

  lemma {:induction false} UpToMark(head: string, mark: char, rest: string)
    requires mark !in head
    ensures UpTo(head + [mark] + rest, mark) == head
  {
    var s := head + [mark] + rest;
    if head != "" {
      assert s[1..] == head[1..] + [mark] + rest;
      UpToMark(head[1..], mark, rest);
    }
  }

  lemma MountIsShown(cwd: string, m: Mount)
    requires IsReadable(m)
    ensures Undashed(MountSpec(m))
    ensures HostPath(cwd, VolumeSource(MountSpec(m))) == if m.Bind? then [Segments(m.host)] else []
  {
    match m
    case Bind(host, target, readOnly) =>
      UpToMark(host, ':', target + if readOnly then ":ro" else "");
    case Volume(name, target) =>
      assert ':' !in name;
      UpToMark(name, ':', target);
  }

  lemma SpecIsMount(m: Mount)
    requires IsReadable(m)
    ensures IsMount(Pair("-v", MountSpec(m)))
  {
    MountIsShown("", m);
    hide MountSpec, Undashed;
  }

  lemma {:induction false} TableIsRead(cwd: string, mounts: seq<Mount>)
    requires forall i :: 0 <= i < |mounts| ==> IsReadable(mounts[i])
    ensures AllMounts(cwd, MountArgs(mounts)) == HostPaths(mounts)
    decreases mounts
  {
    hide IsReadable, HostPath, MountSpec, Undashed;
    if mounts != [] {
      MountIsShown(cwd, mounts[0]);
      assert MountArgs(mounts)[1..] == MountArgs(mounts[1..]);
      TableIsRead(cwd, mounts[1..]);
    }
  }
}
