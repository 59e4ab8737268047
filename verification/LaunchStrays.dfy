/** What the readers of the network and of mounts make of pushes when the operator's strings are of any
    spelling: exactly which of them hide the network, and how many mounts each adds. */
module LaunchStrays {
  import opened Optional
  import opened StringOps
  import opened Paths
  import opened LaunchArgv
  import opened ArgvReaders
  import opened LaunchAgreement
  import opened LaunchRoundTrip
  import opened LaunchMarks

  // ------------------------------------------------------------------ network

  function BeforeLimits(w: Worker, d: Docker, o: Options): seq<Arg> {
    HeadArgs(w, o) + HardeningArgs(d) + ScratchArgs(d) + MountArgs(CloneMounts(o)) + GcloudArgs()
  }

  lemma BeforeLimitsCarry(w: Worker, d: Docker, o: Options, t: string)
    requires IsNetworkFlag(t)
    ensures t !in Texts(BeforeLimits(w, d, o))
  {
    hide Carries, HeadArgs, HardeningArgs, ScratchArgs, GcloudArgs, MountArgs, CloneMounts, Texts;
    var head, hard, scratch, clone := HeadArgs(w, o), HardeningArgs(d), ScratchArgs(d), MountArgs(CloneMounts(o));
    MarksAreShort(t);
    HeadCarries(w, o, t);
    HardeningCarries(d, t);
    ScratchCarries(d, t);
    MountsCarry(CloneMounts(o), t);
    CarriesConcat(head, hard, t);
    CarriesConcat(head + hard, scratch, t);
    CarriesConcat(head + hard + scratch, clone, t);
    CarriesConcat(head + hard + scratch + clone, GcloudArgs(), t);
    TextsCarry(BeforeLimits(w, d, o), t);
  }

  lemma NothingBefore(w: Worker, d: Docker, o: Options)
    ensures var texts := Texts(BeforeLimits(w, d, o)); forall i :: 0 <= i < |texts| ==> !IsNetworkFlag(texts[i])
  {
    hide BeforeLimits, Texts;
    BeforeLimitsCarry(w, d, o, "--network");
    BeforeLimitsCarry(w, d, o, "--net");
  }

  lemma {:induction false} NetworkPast(texts: seq<string>, rest: seq<string>)
    requires forall i :: 0 <= i < |texts| ==> !IsNetworkFlag(texts[i])
    ensures NetworkOf(texts + rest) == NetworkOf(rest)
    decreases texts
  {
    hide IsNetworkFlag;
    if texts == [] {
      assert texts + rest == rest;
    } else {
      assert (texts + rest)[1..] == texts[1..] + rest;
      NetworkPast(texts[1..], rest);
    }
  }

  function LimitTexts(d: Docker): seq<string> {
    ["--pids-limit", NatText(d.pidsLimit), "--memory", d.memory, "--cpus", d.cpus]
  }

  lemma LimitsSpelled(d: Docker, network: string)
    ensures Texts(LimitArgs(d) + [Pair("--network", network)]) == LimitTexts(d) + ["--network", network]
  {
    hide Texts, NatText;
    var digits := NatText(d.pidsLimit);
    var pids, memory, cpus := [Pair("--pids-limit", digits)], [Pair("--memory", d.memory)], [Pair("--cpus", d.cpus)];
    var attach := [Pair("--network", network)];
    OnePair("--pids-limit", digits);
    OnePair("--memory", d.memory);
    OnePair("--cpus", d.cpus);
    OnePair("--network", network);
    TextsConcat(pids, memory);
    TextsConcat(pids + memory, cpus);
    TextsConcat(pids + memory + cpus, attach);
    assert LimitArgs(d) + attach == pids + memory + cpus + attach;
  }

  lemma PastPair(name: string, value: string, rest: seq<string>)
    requires !IsNetworkFlag(name)
    ensures NetworkOf([name, value] + rest)
            == if IsNetworkFlag(value) then (if rest == [] then None else Some(rest[0])) else NetworkOf(rest)
  {
    var argv := [name, value] + rest;
    assert argv[1..] == [value] + rest && argv[1..][1..] == rest;
  }

  lemma LimitsThenNetwork(d: Docker, network: string, rest: seq<string>)
    ensures NetworkOf(LimitTexts(d) + (["--network", network] + rest))
            == if IsNetworkFlag(d.memory) then Some("--cpus")
               else if IsNetworkFlag(d.cpus) then Some("--network")
               else Some(network)
  {
    hide NatText;
    var digits := NatText(d.pidsLimit);
    assert IsDigit(digits[0]);
    var fromNetwork := ["--network", network] + rest;
    var fromCpus := ["--cpus", d.cpus] + fromNetwork;
    var fromMemory := ["--memory", d.memory] + fromCpus;
    assert LimitTexts(d) + fromNetwork == ["--pids-limit", digits] + fromMemory;
    assert |"--pids-limit"| == 12 && |"--memory"| == 8 && |"--cpus"| == 6 && |"--network"| == 9 && |"--net"| == 5;
    PastPair("--pids-limit", digits, fromMemory);
    PastPair("--memory", d.memory, fromCpus);
    PastPair("--cpus", d.cpus, fromNetwork);
  }

  /** The network read back from any worker's launch, whatever the operator's strings are: the attached one,
      unless the memory or CPU limit is spelled like the flag. */
  lemma NetworkIsExactly(w: Worker, d: Docker, o: Options)
    ensures NetworkOf(Rendered(w, d, o))
            == if IsNetworkFlag(d.memory) then Some("--cpus")
               else if IsNetworkFlag(d.cpus) then Some("--network")
               else Some(EgressNetwork(w, d))
  {
    hide BeforeLimits, LimitArgs, TailArgs, EgressNetwork, Texts, NetworkOf, LimitTexts, DockerArgs;
    var before, network := BeforeLimits(w, d, o), EgressNetwork(w, d);
    LimitsAreLast(w, d, o);
    TextsConcat(before, LimitArgs(d) + [Pair("--network", network)] + TailArgs(w, d, o));
    TextsConcat(LimitArgs(d) + [Pair("--network", network)], TailArgs(w, d, o));
    LimitsSpelled(d, network);
    var attach := ["--network", network];
    var rest := LimitTexts(d) + (attach + Texts(TailArgs(w, d, o)));
    assert LimitTexts(d) + attach + Texts(TailArgs(w, d, o)) == rest;
    assert Rendered(w, d, o) == Texts(before) + rest;
    NothingBefore(w, d, o);
    NetworkPast(Texts(before), rest);
    LimitsThenNetwork(d, network, Texts(TailArgs(w, d, o)));
  }

  lemma LimitsAreLast(w: Worker, d: Docker, o: Options)
    ensures DockerArgs(w, d, o)
            == BeforeLimits(w, d, o) + (LimitArgs(d) + [Pair("--network", EgressNetwork(w, d))] + TailArgs(w, d, o))
  {
    hide HeadArgs, HardeningArgs, ScratchArgs, GcloudArgs, LimitArgs, MountArgs, CloneMounts, TailArgs, EgressNetwork;
    RenderedShape(w, d, o);
  }

  // ------------------------------------------------------------------- mounts

  /** Behind one of these the next element is a mount, in the short form. */
  predicate TakesSpec(s: string) { s == "-v" || s == "--volume" }

  /** As an element of its own this string mounts something, by itself or by what comes next. */
  predicate AddsMount(s: string) { TakesSpec(s) || SourceAt("", "", s) != [] }

  /** The name of an option that the mount reader passes over. */
  predicate IsName(name: string) {
    |name| >= 2 && name[0] == '-' && '=' !in name && !IsMountFlag(name) && (|name| == 2 || name[1] == '-')
  }

  lemma NameIsPassed(cwd: string, prev: string, name: string)
    requires IsName(name) || name == "-v"
    ensures |SourceAt(cwd, prev, name)| == if TakesSpec(prev) then 1 else 0
  {
    assert name[0] == '-' && '=' !in name;
    hide Resolve, Trim;
    assert VOLUME_EQ[8] == '=' && MOUNT_EQ[7] == '=';
    assert !(VOLUME_EQ <= name) && !(MOUNT_EQ <= name);
    assert VolumeSource(name) != "" by {
      assert name[0] != ':';
    }
    assert VolumeSource(name)[0] == '-';
    if prev == "--mount" {
      NothingNamed(name);
    }
  }

  lemma NothingNamed(spec: string)
    requires '=' !in spec
    ensures MountSource(spec) == None
  {
    hide Trim;
    var fields := Split(spec, ',');
    SplitHoldsNo(spec, ',', '=');
    NoField(fields);
  }

  lemma {:induction false} UpToAll(s: string, mark: char)
    requires mark !in s
    ensures UpTo(s, mark) == s
  {
    if s != "" {
      UpToAll(s[1..], mark);
    }
  }

  lemma {:induction false} NoField(fields: seq<string>)
    requires forall i :: 0 <= i < |fields| ==> '=' !in fields[i]
    ensures FieldSource(fields) == None
    decreases fields
  {
    hide Trim;
    if fields != [] {
      UpToAll(fields[0], '=');
      NoField(fields[1..]);
    }
  }

  /** Where no mount flag stands before it, a string reads the same everywhere. */
  lemma ReadsAlone(cwd: string, prev: string, s: string)
    requires !IsMountFlag(prev)
    ensures |SourceAt(cwd, prev, s)| == |SourceAt("", "", s)|
  {
    hide Resolve, MountSource, VolumeSource, IsVolumeName;
  }

  lemma UndashedAddsNothing(s: string)
    requires Undashed(s)
    ensures !AddsMount(s)
  {
    UndashedIsUnread(s);
  }

  // ------------------------------------------------------------ what pushes add

  /** A push as the launch makes them: a mount, an option the reader passes over, or a word. */
  predicate Bearing(a: Arg) { a.Word? || IsName(a.name) || IsMount(a) }

  function Operand(a: Arg): string { if a.Flag? then "" else if a.Pair? then a.value else a.text }

  function EndOf(a: Arg): string { if a.Flag? then a.name else Operand(a) }

  predicate Adds(a: Arg) { !a.Flag? && !IsMount(a) && AddsMount(Operand(a)) }

  /** The mounts that a push adds by its operand alone. */
  function Own(a: Arg): nat { if a.Flag? || IsMount(a) then 0 else |SourceAt("", "", Operand(a))| }

  lemma PushIsCounted(cwd: string, prev: string, a: Arg, rest: seq<string>)
    requires Bearing(a) && (a.Word? ==> !IsMountFlag(prev))
    ensures |Sources(cwd, prev, ArgTexts(a) + rest)|
            == (if TakesSpec(prev) && !a.Word? then 1 else 0) + |ArgMounts(cwd, a)| + Own(a)
               + |Sources(cwd, EndOf(a), rest)|
  {
    hide SourceAt, IsName, HostPath, VolumeSource, Undashed;
    var texts := ArgTexts(a);
    assert (texts + rest)[1..] == texts[1..] + rest;
    if a.Word? {
      ReadsAlone(cwd, prev, a.text);
      assert texts[1..] + rest == rest;
    } else {
      NamesAreNoMounts(a);
      NameIsPassed(cwd, prev, a.name);
      if a.Flag? {
        assert texts[1..] + rest == rest;
      } else {
        assert (texts[1..] + rest)[1..] == rest;
        if IsMount(a) {
          MountIsRead(cwd, a.value);
        } else {
          ReadsAlone(cwd, a.name, a.value);
        }
      }
    }
  }

  lemma NamesAreNoMounts(a: Arg)
    requires Bearing(a)
    ensures !a.Word? ==> IsName(a.name) || a.name == "-v"
    ensures !a.Word? && !IsMount(a) ==> !IsMountFlag(a.name) && !TakesSpec(a.name)
    ensures IsMount(a) ==> !IsMountFlag(a.value)
    ensures TakesSpec(EndOf(a)) <==> !IsMount(a) && TakesSpec(Operand(a))
  {
    if IsMount(a) {
      UndashedIsUnread(a.value);
    }
  }

  /** No word stands behind a mount flag. */
  predicate Led(args: seq<Arg>) {
    forall i :: 0 < i < |args| && args[i].Word? ==> !IsMountFlag(EndOf(args[i - 1]))
  }

  predicate AllBearing(args: seq<Arg>) { forall i :: 0 <= i < |args| ==> Bearing(args[i]) }

  /** The mounts that operands add, those they make of the next element among them. */
  function Extra(args: seq<Arg>): nat {
    if args == [] then 0
    else Own(args[0]) + (if |args| > 1 && !IsMount(args[0]) && TakesSpec(Operand(args[0])) then 1 else 0)
         + Extra(args[1..])
  }

  lemma {:induction false} SourcesAreCounted(cwd: string, prev: string, args: seq<Arg>)
    requires AllBearing(args) && Led(args) && (args != [] && args[0].Word? ==> !IsMountFlag(prev))
    ensures |Sources(cwd, prev, Texts(args))|
            == (if args != [] && TakesSpec(prev) && !args[0].Word? then 1 else 0) + |AllMounts(cwd, args)| + Extra(args)
    decreases args
  {
    hide Bearing, ArgTexts, ArgMounts, Own, IsMountFlag, IsMount, TakesSpec, Led, Operand, EndOf;
    if args != [] {
      var a := args[0];
      PushIsCounted(cwd, prev, a, Texts(args[1..]));
      RestIsLed(args);
      SourcesAreCounted(cwd, EndOf(a), args[1..]);
      NamesAreNoMounts(a);
      WordsAreLed(args);
    }
  }

  lemma RestIsLed(args: seq<Arg>)
    requires args != [] && Led(args)
    ensures Led(args[1..]) && (|args| > 1 && args[1].Word? ==> !IsMountFlag(EndOf(args[0])))
  {
    hide IsMountFlag, EndOf;
  }

  lemma WordsAreLed(args: seq<Arg>)
    requires Led(args)
    ensures |args| > 1 && TakesSpec(EndOf(args[0])) ==> !args[1].Word?
  {
  }

  lemma {:induction false} ExtraIsNone(args: seq<Arg>)
    requires args != [] ==> !Adds(args[|args| - 1])
    ensures Extra(args) == 0 <==> !AddsIn(args)
    decreases args
  {
    hide Adds, Own, IsMount, TakesSpec;
    if args != [] {
      ExtraIsNone(args[1..]);
      OneAdds(args[0]);
      assert AddsIn(args) <==> Adds(args[0]) || AddsIn(args[1..]) by {
        assert forall i | 0 < i < |args| :: args[i] == args[1..][i - 1];
      }
    }
  }

  predicate AddsIn(args: seq<Arg>) { exists i | 0 <= i < |args| :: Adds(args[i]) }

  lemma OneAdds(a: Arg)
    ensures Adds(a) <==> Own(a) > 0 || (!IsMount(a) && TakesSpec(Operand(a)))
  {
    hide SourceAt, IsMount;
  }

  /** What no operand adds to is read as its mounts, in order. */
  lemma {:induction false} SourcesAreMounts(cwd: string, prev: string, args: seq<Arg>)
    requires AllBearing(args) && Led(args) && (args != [] && args[0].Word? ==> !IsMountFlag(prev))
    requires !AddsIn(args) && !TakesSpec(prev)
    ensures Sources(cwd, prev, Texts(args)) == AllMounts(cwd, args)
    decreases args
  {
    hide Bearing, ArgTexts, ArgMounts, IsMountFlag, IsMount, Adds, TakesSpec;
    if args != [] {
      var a := args[0];
      PushIsMount(cwd, prev, a, Texts(args[1..]));
      RestIsLed(args);
      assert forall i | 0 <= i < |args[1..]| :: args[1..][i] == args[i + 1];
      SourcesAreMounts(cwd, EndOf(a), args[1..]);
    }
  }

  lemma PushIsMount(cwd: string, prev: string, a: Arg, rest: seq<string>)
    requires Bearing(a) && (a.Word? ==> !IsMountFlag(prev)) && !TakesSpec(prev) && !Adds(a)
    ensures Sources(cwd, prev, ArgTexts(a) + rest) == ArgMounts(cwd, a) + Sources(cwd, EndOf(a), rest)
    ensures !TakesSpec(EndOf(a))
  {
    hide SourceAt, IsName, HostPath, VolumeSource, Undashed;
    NamesAreNoMounts(a);
    var texts := ArgTexts(a);
    assert (texts + rest)[1..] == texts[1..] + rest;
    if a.Word? {
      ReadsAlone(cwd, prev, a.text);
      assert texts[1..] + rest == rest;
    } else {
      NameIsPassed(cwd, prev, a.name);
      if a.Flag? {
        assert texts[1..] + rest == rest;
      } else {
        assert (texts[1..] + rest)[1..] == rest;
        if IsMount(a) {
          MountIsRead(cwd, a.value);
        } else {
          ReadsAlone(cwd, a.name, a.value);
        }
      }
    }
  }
}
