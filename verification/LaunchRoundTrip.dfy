/** The rendered launch, its host paths, and every spelling of a mount. */
module LaunchRoundTrip {
  import opened Optional
  import opened StringOps
  import opened Paths
  import opened LaunchArgv
  import opened ArgvReaders
  import opened LaunchAgreement

  /** Worker ids are made of name characters. */
  predicate IsId(s: string) { IsVolumeName(s) }

  /** Host paths are absolute and hold no colon. */
  predicate ColonFree(o: Options) {
    && IsHostText(o.runRoot) && IsHostText(o.repo)
    && (o.cloneSource.Some? && o.cloneSource.value != "" ==> IsHostText(o.cloneSource.value))
  }

  /** The host paths of a launch: an id and a role that are path segments, below such directories. */
  predicate HasHostPaths(w: Worker, o: Options) { IsId(w.id) && ':' !in w.role && ColonFree(o) }

  const NONE: seq<Mount> := []

  // ------------------------------------------------------------------ host paths

  lemma CloneIsReadable(o: Options)
    requires ColonFree(o)
    ensures forall i :: 0 <= i < |CloneMounts(o)| ==> IsReadable(CloneMounts(o)[i])
  {
    hide CloneMount;
  }

  lemma HostsAreReadable(w: Worker, d: Docker, o: Options)
    requires HasHostPaths(w, o)
    ensures forall m :: m in WorkerMounts(w, d, o) ==> IsReadable(m)
  {
    hide CodeMounts, RunMounts, PolicyMounts, StateMounts, IsReadable;
    CodeIsReadable(w, o);
    RunIsReadable(w, o);
    PolicyIsReadable(w, o);
    StateIsReadable(w, d, o);
  }

  lemma IdHasNoColon(id: string)
    requires IsId(id)
    ensures ':' !in id && IsVolumeName("pifleet-piagent-" + id)
  {
  }

  lemma BelowIsHostText(dir: string, rest: string)
    requires IsHostText(dir) && ':' !in rest
    ensures IsHostText(dir + rest)
  {
  }

  lemma CodeIsReadable(w: Worker, o: Options)
    requires IsId(w.id) && ColonFree(o)
    ensures forall m :: m in CodeMounts(w, o) ==> IsReadable(m)
  {
    hide IsHostText;
    IdHasNoColon(w.id);
    BelowIsHostText(o.runRoot, "/worktrees/");
    BelowIsHostText(o.runRoot + "/worktrees/", w.id);
  }

  lemma RunIsReadable(w: Worker, o: Options)
    requires IsId(w.id) && ':' !in w.role && ColonFree(o)
    ensures forall m :: m in RunMounts(w, o) ==> IsReadable(m)
  {
    hide IsHostText;
    IdHasNoColon(w.id);
    BelowIsHostText(o.runRoot, "/outbox/");
    BelowIsHostText(o.runRoot + "/outbox/", w.id);
    BelowIsHostText(o.runRoot, "/replies/");
    BelowIsHostText(o.runRoot + "/replies/", w.id);
    BelowIsHostText(o.runRoot, "/sessions");
    BelowIsHostText(o.runRoot, "/skills/");
    BelowIsHostText(o.runRoot + "/skills/", w.role);
  }

  lemma PolicyIsReadable(w: Worker, o: Options)
    requires IsId(w.id) && ColonFree(o)
    ensures forall m :: m in PolicyMounts(w, o) ==> IsReadable(m)
  {
    hide WorkerDir, IsHostText;
    var dir := WorkerDir(o, w.id);
    WorkerDirIsHostText(w, o);
    BelowIsHostText(dir, "/cloud-allow");
    BelowIsHostText(dir, "/task-policy");
    BelowIsHostText(dir, "/dispatch-policy");
    BelowIsHostText(dir, "/replies-policy");
    BelowIsHostText(dir, "/secrets");
  }

  lemma WorkerDirIsHostText(w: Worker, o: Options)
    requires IsId(w.id) && ColonFree(o)
    ensures IsHostText(WorkerDir(o, w.id))
  {
    hide IsHostText;
    IdHasNoColon(w.id);
    BelowIsHostText(o.runRoot, "/workers/");
    BelowIsHostText(o.runRoot + "/workers/", w.id);
  }

  lemma StateIsReadable(w: Worker, d: Docker, o: Options)
    requires IsId(w.id) && ColonFree(o)
    ensures forall m :: m in StateMounts(w, d, o) ==> IsReadable(m)
  {
    hide WorkerDir, IsHostText, IsVolumeName;
    IdHasNoColon(w.id);
    WorkerDirIsHostText(w, o);
    BelowIsHostText(WorkerDir(o, w.id), "/system-append.md");
    BelowIsHostText(WorkerDir(o, w.id), "/kubeconfig");
  }

  // ------------------------------------------------------------- rendered launches

  /** The rendered argv of one worker. */
  function Rendered(w: Worker, d: Docker, o: Options): seq<string> { Texts(DockerArgs(w, d, o)) }

  function TailArgs(w: Worker, d: Docker, o: Options): seq<Arg> {
    AfterNetwork(w, d, o) + PiFlags(w, o.hasBriefing)
  }

  /** The argv, in three stretches. */
  lemma RenderedShape(w: Worker, d: Docker, o: Options)
    ensures DockerArgs(w, d, o)
            == BeforeNetwork(w, d, o) + ([Pair("--network", EgressNetwork(w, d))] + TailArgs(w, d, o))
  {
    hide BeforeNetwork, AfterNetwork, PiFlags, EgressNetwork;
  }

  const RUN := [Word("docker"), Word("run")]

  function HeadOptions(w: Worker, o: Options): seq<Arg> {
    [Flag("-i")] + (if w.paneMode == Tui then [Flag("-t")] else [])
    + [Flag("--rm"), Pair("--name", ContainerName(w, o))]
  }

  /** The options between `docker run` and the image. */
  function RunOptions(w: Worker, d: Docker, o: Options): seq<Arg> {
    HeadOptions(w, o) + HardeningArgs(d) + ScratchArgs(d) + MountArgs(CloneMounts(o)) + GcloudArgs() + LimitArgs(d)
    + [Pair("--network", EgressNetwork(w, d))] + [Pair("--env-file", WorkerDir(o, w.id) + "/env")]
    + MountArgs(WorkerMounts(w, d, o))
  }

  lemma LaunchParts(w: Worker, d: Docker, o: Options)
    ensures DockerArgs(w, d, o) == RUN + RunOptions(w, d, o) + [Word(o.image)] + PiFlags(w, o.hasBriefing)
  {
    hide HardeningArgs, ScratchArgs, GcloudArgs, LimitArgs, MountArgs, CloneMounts, WorkerMounts, EgressNetwork,
         WorkerDir, PiFlags, ContainerName;
    assert HeadArgs(w, o) == RUN + HeadOptions(w, o);
  }

  lemma OnePair(name: string, value: string)
    ensures Texts([Pair(name, value)]) == [name, value]
  {
    assert [Pair(name, value)][1..] == [];
  }

  // ---------------------------------------------------------- other spellings

  /** A bind mount in the long spelling. */
  function BindFields(host: string, target: string): string {
    Join(["type=bind", "source=" + host, "target=" + target], ',')
  }

  lemma FieldsAreRead(host: string, target: string)
    requires ',' !in host && ',' !in target
    ensures MountSource(BindFields(host, target)) == Some(host)
  {
    hide FieldSource, Split, Join;
    SplitUndoesJoin(["type=bind", "source=" + host, "target=" + target], ',');
    FieldsInOrder(host, "target=" + target);
  }

  lemma FieldsInOrder(host: string, third: string)
    ensures FieldSource(["type=bind", "source=" + host, third]) == Some(host)
  {
    hide Trim, UpTo;
    KeyIs("type", "bind");
    KeyIs("source", host);
    assert "type" + "=" + "bind" == "type=bind" && "source" + "=" + host == "source=" + host;
    TrimKeys();
    assert "type"[0] != "source"[0];
    var fields := ["type=bind", "source=" + host, third];
    assert fields[1..] == ["source=" + host, third];
    assert ("source=" + host)[|"source"| + 1..] == host;
    assert FieldSource(fields[1..]) == Some(host);
  }

  lemma KeyIs(key: string, value: string)
    requires '=' !in key
    ensures UpTo(key + "=" + value, '=') == key && key + "=" + value != key
  {
    UpToMark(key, '=', value);
    assert |key + "=" + value| > |key|;
  }

  lemma TrimKeys()
    ensures Trim("type") == "type" && Trim("source") == "source"
  {
  }

  /** Every spelling of a bind mount that Docker takes shows its host path. */
  lemma EverySpellingIsRead(cwd: string, host: string, target: string)
    requires IsHostText(host) && ',' !in host && ',' !in target
    ensures var spec, fields := host + ":" + target, BindFields(host, target);
            && SourceAt(cwd, "-v", spec) == [Segments(host)]
            && SourceAt(cwd, "--volume", spec) == [Segments(host)]
            && SourceAt(cwd, "", VOLUME_EQ + spec) == [Segments(host)]
            && SourceAt(cwd, "", "-v" + spec) == [Segments(host)]
            && SourceAt(cwd, "--mount", fields) == [Segments(host)]
            && SourceAt(cwd, "", MOUNT_EQ + fields) == [Segments(host)]
  {
    hide MountSource, VolumeSource, HostPath, SourceAt;
    var spec, fields := host + ":" + target, BindFields(host, target);
    MountIsShown(cwd, Bind(host, target, false));
    assert MountSpec(Bind(host, target, false)) == spec;
    FieldsAreRead(host, target);
    HostIsResolved(cwd, host);
    SplitSpellings(cwd, spec, fields);
    GluedSpellings(cwd, spec, fields);
  }

  lemma HostIsResolved(cwd: string, host: string)
    requires IsHostText(host)
    ensures HostPath(cwd, host) == [Segments(host)]
  {
  }

  lemma SplitSpellings(cwd: string, spec: string, fields: string)
    ensures SourceAt(cwd, "-v", spec) == SourceAt(cwd, "--volume", spec) == HostPath(cwd, VolumeSource(spec))
    ensures SourceAt(cwd, "--mount", fields) == OptionPath(cwd, MountSource(fields))
  {
    hide MountSource, VolumeSource, HostPath;
  }

  lemma GluedSpellings(cwd: string, spec: string, fields: string)
    requires spec != "" && spec[0] == '/'
    ensures SourceAt(cwd, "", VOLUME_EQ + spec) == HostPath(cwd, VolumeSource(spec))
    ensures SourceAt(cwd, "", MOUNT_EQ + fields) == OptionPath(cwd, MountSource(fields))
    ensures SourceAt(cwd, "", "-v" + spec) == HostPath(cwd, VolumeSource(spec))
  {
    hide MountSource, VolumeSource, HostPath;
    assert (VOLUME_EQ + spec)[|VOLUME_EQ|..] == spec;
    NotPrefix(VOLUME_EQ, MOUNT_EQ + fields, 2);
    assert (MOUNT_EQ + fields)[|MOUNT_EQ|..] == fields;
    var glued := "-v" + spec;
    NotPrefix(VOLUME_EQ, glued, 1);
    NotPrefix(MOUNT_EQ, glued, 1);
    NotPrefix("--", glued, 1);
    assert glued[2..] == spec;
  }
}
