/** Worker image tags and the launch gate over them (`src/container/image.ts`). */
module ImageGate {
  import opened Optional
  import opened StringOps

  // --------------------------------------------------------------------- tags

  datatype TagClaim = TagClaim(piVersion: string, toolchain: string, configHash: string)

  function ImageTag(prefix: string, claim: TagClaim): string {
    prefix + ":" + (claim.piVersion + "-" + claim.toolchain + "-" + claim.configHash)
  }

  const HASH_LENGTH: nat := 12

  predicate IsHash(s: string) {
    |s| == HASH_LENGTH && forall i :: 0 <= i < |s| ==> '0' <= s[i] <= '9' || 'a' <= s[i] <= 'f'
  }

  predicate IsLineEnd(c: char) { c == '\n' || c == '\r' || c == '\U{2028}' || c == '\U{2029}' }

  /** `^(.+)-([^-]+)-([0-9a-f]{12})$`: the hash is anchored, the toolchain holds no dash, the version is
      the rest. */
  function ReadClaim(s: string): Option<TagClaim> {
    var end := |s| - HASH_LENGTH;
    if end < 1 || s[end - 1] != '-' || !IsHash(s[end..]) then None
    else
      var body := s[..end - 1];
      var dash := LastOf(body, '-');
      if dash < 1 || dash == |body| - 1 || exists i | 0 <= i < dash :: IsLineEnd(body[i]) then None
      else Some(TagClaim(body[..dash], body[dash + 1..], s[end..]))
  }

  function ParseImageTag(tag: string): Option<TagClaim> {
    var colon := LastOf(tag, ':');
    if colon < 0 then None else ReadClaim(tag[colon + 1..])
  }

  /** What a tag can claim: a version of one line, a toolchain of one word, a hash. */
  predicate IsClaim(c: TagClaim) {
    && c.piVersion != "" && (forall i :: 0 <= i < |c.piVersion| ==> !IsLineEnd(c.piVersion[i]))
    && c.toolchain != "" && '-' !in c.toolchain
    && IsHash(c.configHash)
  }

  predicate ColonFree(c: TagClaim) { ':' !in c.piVersion && ':' !in c.toolchain }

  lemma BodyParts(version: string, toolchain: string)
    requires toolchain != "" && '-' !in toolchain
    ensures var body := version + "-" + toolchain;
            && LastOf(body, '-') == |version| && body[..|version|] == version && body[|version| + 1..] == toolchain
  {
    LastIs(version + "-" + toolchain, '-', |version|);
  }

  lemma ClaimIsRead(c: TagClaim)
    requires IsClaim(c)
    ensures ReadClaim(c.piVersion + "-" + c.toolchain + "-" + c.configHash) == Some(c)
  {
    hide LastOf, IsHash, IsLineEnd;
    var body := c.piVersion + "-" + c.toolchain;
    var s := body + "-" + c.configHash;
    assert |c.configHash| == HASH_LENGTH by { HashLength(c.configHash); }
    assert s[|body| + 1..] == c.configHash && s[..|body|] == body;
    BodyParts(c.piVersion, c.toolchain);
    assert forall i | 0 <= i < |c.piVersion| :: body[i] == c.piVersion[i];
  }

  lemma HashLength(s: string)
    requires IsHash(s)
    ensures |s| == HASH_LENGTH && ':' !in s
  {
  }

  lemma ReadClaimIsClaim(s: string)
    requires ReadClaim(s).Some?
    ensures var c := ReadClaim(s).value; IsClaim(c) && s == c.piVersion + "-" + c.toolchain + "-" + c.configHash
  {
    hide IsHash, IsLineEnd;
    var end := |s| - HASH_LENGTH;
    var body := s[..end - 1];
    var dash := LastOf(body, '-');
    assert body == body[..dash] + "-" + body[dash + 1..];
    assert s == body + "-" + s[end..];
  }

  /** Every printed tag is read back, whatever colons its prefix and dashes its version hold. */
  lemma PrintedTagIsRead(prefix: string, c: TagClaim)
    requires IsClaim(c) && ColonFree(c)
    ensures ParseImageTag(ImageTag(prefix, c)) == Some(c)
  {
    hide ReadClaim, LastOf, IsHash, IsLineEnd;
    var rest := c.piVersion + "-" + c.toolchain + "-" + c.configHash;
    var tag := prefix + ":" + rest;
    HashLength(c.configHash);
    LastIs(tag, ':', |prefix|);
    assert tag[|prefix| + 1..] == rest;
    ClaimIsRead(c);
  }

  lemma PartsAreColonFree(c: TagClaim)
    requires ':' !in c.piVersion + "-" + c.toolchain + "-" + c.configHash
    ensures ColonFree(c)
  {
    var rest := c.piVersion + "-" + c.toolchain + "-" + c.configHash;
    assert forall i | 0 <= i < |c.piVersion| :: rest[i] == c.piVersion[i];
    assert forall i | 0 <= i < |c.toolchain| :: rest[|c.piVersion| + 1 + i] == c.toolchain[i];
  }

  lemma CutAt(tag: string, i: nat)
    requires i < |tag|
    ensures tag == tag[..i] + [tag[i]] + tag[i + 1..]
  {
  }

  /** And a tag that is read is the printed form of what was read. */
  lemma ReadTagIsPrinted(tag: string)
    requires ParseImageTag(tag).Some?
    ensures exists prefix :: tag == ImageTag(prefix, ParseImageTag(tag).value)
    ensures IsClaim(ParseImageTag(tag).value) && ColonFree(ParseImageTag(tag).value)
  {
    hide ReadClaim, IsClaim, ColonFree, LastOf;
    var colon := LastOf(tag, ':');
    var c := ParseImageTag(tag).value;
    ReadClaimIsClaim(tag[colon + 1..]);
    PartsAreColonFree(c);
    CutAt(tag, colon);
    assert tag == ImageTag(tag[..colon], c);
  }

  // ------------------------------------------------------------------ identity

  /** What an image's build labels say; an empty or missing label says nothing. */
  datatype Labels = Unreadable | Labels(piVersion: string, toolchain: string, configHash: string)

  predicate Drifted(tag: string, labels: Labels) {
    var claim := ParseImageTag(tag);
    if claim.None? then false
    else if labels.Unreadable? then true
    else
      || (labels.piVersion == "" && labels.toolchain == "" && labels.configHash == "")
      || (labels.piVersion != "" && labels.piVersion != claim.value.piVersion)
      || (labels.toolchain != "" && labels.toolchain != claim.value.toolchain)
      || (labels.configHash != "" && labels.configHash != claim.value.configHash)
  }

  /** An image that carries the labels of one build answers to that build's tag and to no other. */
  lemma LabelsAnswerToOwnTag(prefix: string, tagged: TagClaim, built: TagClaim)
    requires IsClaim(tagged) && ColonFree(tagged) && IsClaim(built)
    ensures Drifted(ImageTag(prefix, tagged), Labels(built.piVersion, built.toolchain, built.configHash))
            <==> tagged != built
  {
    hide ParseImageTag, ImageTag, IsLineEnd;
    PrintedTagIsRead(prefix, tagged);
  }

  /** Fewer labels: an image that says nothing, or cannot be read, is not taken for the tag's; one that says
      something is, exactly when the tag's own build completes it. A tag of
      somebody else's making claims nothing. */
  lemma PartialLabelsDrift(tag: string, labels: Labels)
    ensures ParseImageTag(tag).None? ==> !Drifted(tag, labels)
    ensures ParseImageTag(tag).Some? && labels.Unreadable? ==> Drifted(tag, labels)
    ensures ParseImageTag(tag).Some? && labels.Labels? ==>
              (!Drifted(tag, labels)
               <==> labels != Labels("", "", "")
                    && Completes(ParseImageTag(tag).value, labels))
  {
    hide ParseImageTag;
  }

  /** `full` is a build whose labels these are, with some left out. */
  ghost predicate Completes(full: TagClaim, labels: Labels)
    requires labels.Labels?
  {
    && (labels.piVersion == "" || labels.piVersion == full.piVersion)
    && (labels.toolchain == "" || labels.toolchain == full.toolchain)
    && (labels.configHash == "" || labels.configHash == full.configHash)
  }

  // -------------------------------------------------------------- requirements

  datatype Requirement = Requirement(workerId: string, role: string, toolchain: string, image: string)

  datatype RequiredImage = RequiredImage(tag: string, toolchain: string, roles: seq<string>, workers: seq<string>)

  /** A list without its repetitions, each entry where it was first seen. */
  function FirstSeen(xs: seq<string>): (seen: seq<string>)
    ensures forall x :: x in seen <==> x in xs
    ensures forall i, j :: 0 <= i < j < |seen| ==> seen[i] != seen[j]
  {
    if xs == [] then []
    else Insert(FirstSeen(xs[..|xs| - 1]), xs[|xs| - 1])
  }

  function Insert(seen: seq<string>, x: string): seq<string> { if x in seen then seen else seen + [x] }

  function Images(entries: seq<Requirement>): seq<string> {
    seq(|entries|, i requires 0 <= i < |entries| => entries[i].image)
  }

  function RolesOf(entries: seq<Requirement>, tag: string): seq<string> {
    if entries == [] then []
    else
      var last := entries[|entries| - 1];
      RolesOf(entries[..|entries| - 1], tag) + if last.image == tag then [last.role] else []
  }

  function WorkersOf(entries: seq<Requirement>, tag: string): seq<string> {
    if entries == [] then []
    else
      var last := entries[|entries| - 1];
      WorkersOf(entries[..|entries| - 1], tag) + if last.image == tag then [last.workerId] else []
  }

  /** The toolchain of the first entry on this tag. */
  function ToolchainOf(entries: seq<Requirement>, tag: string): string {
    if entries == [] then ""
    else if entries[0].image == tag then entries[0].toolchain
    else ToolchainOf(entries[1..], tag)
  }

  function RecordOf(entries: seq<Requirement>, tag: string): RequiredImage {
    RequiredImage(tag, ToolchainOf(entries, tag), FirstSeen(RolesOf(entries, tag)), FirstSeen(WorkersOf(entries, tag)))
  }

  /** One record for each distinct tag, in the order the tags were first seen. */
  function Required(entries: seq<Requirement>): seq<RequiredImage> {
    var tags := FirstSeen(Images(entries));
    seq(|tags|, i requires 0 <= i < |tags| => RecordOf(entries, tags[i]))
  }

  method IndexOfTag(records: seq<RequiredImage>, tag: string) returns (at: int)
    ensures -1 <= at < |records|
    ensures at == -1 ==> forall i :: 0 <= i < |records| ==> records[i].tag != tag
    ensures at >= 0 ==> records[at].tag == tag
  {
    for i := 0 to |records|
      invariant forall j :: 0 <= j < i ==> records[j].tag != tag
    {
      if records[i].tag == tag { return i; }
    }
    return -1;
  }

  method RequiredImages(entries: seq<Requirement>) returns (records: seq<RequiredImage>)
    ensures records == Required(entries)
  {
    hide RecordOf, FirstSeen;
    records := [];
    NothingRequired();
    for n := 0 to |entries|
      invariant records == Required(entries[..n])
    {
      var e := entries[n];
      var tags := FirstSeen(Images(entries[..n]));
      RequiredStep(entries, n);
      var at := IndexOfTag(records, e.image);
      if at == -1 {
        records := records + [RequiredImage(e.image, e.toolchain, [e.role], [e.workerId])];
      } else {
        var record := records[at];
        records := records[at := record.(roles := Insert(record.roles, e.role),
                                         workers := Insert(record.workers, e.workerId))];
      }
    }
    assert entries[..|entries|] == entries;
  }

  lemma NothingRequired()
    ensures Required([]) == []
  {
  }

  lemma {:induction false} NobodyOn(es: seq<Requirement>, tag: string)
    requires tag !in Images(es)
    ensures RolesOf(es, tag) == [] && WorkersOf(es, tag) == []
  {
    if es != [] {
      var n := |es| - 1;
      assert Images(es) == Images(es[..n]) + [es[n].image];
      NobodyOn(es[..n], tag);
    }
  }

  lemma {:induction false} ToolchainStep(es: seq<Requirement>, e: Requirement, tag: string)
    ensures ToolchainOf(es + [e], tag)
            == if tag in Images(es) then ToolchainOf(es, tag) else if e.image == tag then e.toolchain else ""
    decreases es
  {
    if es != [] {
      assert (es + [e])[1..] == es[1..] + [e];
      assert Images(es) == [es[0].image] + Images(es[1..]);
      ToolchainStep(es[1..], e, tag);
    }
  }

  lemma {:induction false} ToolchainOfNone(es: seq<Requirement>, tag: string)
    requires tag !in Images(es)
    ensures ToolchainOf(es, tag) == ""
    decreases es
  {
    if es != [] {
      assert Images(es) == [es[0].image] + Images(es[1..]);
      ToolchainOfNone(es[1..], tag);
    }
  }

  lemma InsertLast(xs: seq<string>, x: string)
    ensures FirstSeen(xs + [x]) == Insert(FirstSeen(xs), x)
  {
    assert (xs + [x])[..|xs|] == xs;
  }

  /** What one more entry changes in the record of a tag. */
  lemma RecordStep(es: seq<Requirement>, e: Requirement, tag: string)
    ensures var before := RecordOf(es, tag);
            RecordOf(es + [e], tag)
            == if e.image != tag then before
               else if tag in Images(es) then
                 before.(roles := Insert(before.roles, e.role), workers := Insert(before.workers, e.workerId))
               else RequiredImage(tag, e.toolchain, [e.role], [e.workerId])
  {
    hide ToolchainOf, Images;
    assert (es + [e])[..|es|] == es;
    ToolchainStep(es, e, tag);
    InsertLast(RolesOf(es, tag), e.role);
    InsertLast(WorkersOf(es, tag), e.workerId);
    assert RolesOf(es, tag) + [] == RolesOf(es, tag) && WorkersOf(es, tag) + [] == WorkersOf(es, tag);
    if tag !in Images(es) {
      NobodyOn(es, tag);
      ToolchainOfNone(es, tag);
    }
  }

  lemma RequiredStep(entries: seq<Requirement>, n: nat)
    requires n < |entries|
    ensures var e, before, after := entries[n], Required(entries[..n]), Required(entries[..n + 1]);
            && (e.image !in FirstSeen(Images(entries[..n])) ==>
                  after == before + [RequiredImage(e.image, e.toolchain, [e.role], [e.workerId])])
            && (forall i | 0 <= i < |before| && before[i].tag == e.image ::
                  after == before[i := before[i].(roles := Insert(before[i].roles, e.role),
                                                  workers := Insert(before[i].workers, e.workerId))])
    ensures forall i | 0 <= i < |Required(entries[..n])| ::
              Required(entries[..n])[i].tag == FirstSeen(Images(entries[..n]))[i]
    ensures |Required(entries[..n])| == |FirstSeen(Images(entries[..n]))|
  {
    hide RecordOf, FirstSeen;
    var es, e := entries[..n], entries[n];
    assert entries[..n + 1] == es + [e];
    assert Images(es + [e]) == Images(es) + [e.image];
    InsertLast(Images(es), e.image);
    var tags := FirstSeen(Images(es));
    forall i | 0 <= i < |tags| ensures RecordOf(es, tags[i]).tag == tags[i] && tags[i] in Images(es) {
      RecordTag(es, tags[i]);
      assert tags[i] in tags;
    }
    forall t ensures e.image != t ==> RecordOf(es + [e], t) == RecordOf(es, t) {
      RecordStep(es, e, t);
    }
    RecordStep(es, e, e.image);
    var before, after := Required(es), Required(es + [e]);
    forall i | 0 <= i < |before| && before[i].tag == e.image
      ensures after == before[i := before[i].(roles := Insert(before[i].roles, e.role),
                                              workers := Insert(before[i].workers, e.workerId))]
    {
      assert tags[i] == e.image && Insert(tags, e.image) == tags;
    }
  }

  lemma RecordTag(es: seq<Requirement>, tag: string)
    ensures RecordOf(es, tag).tag == tag
  {
  }

  // -------------------------------------------------------- what is collapsed

  /** Each entry's role and worker are on exactly one record, the one for its image; a record lists
      nobody else, and nobody twice. */
  lemma NobodyIsLost(entries: seq<Requirement>)
    ensures var records := Required(entries);
            && (forall k, l :: 0 <= k < l < |records| ==> records[k].tag != records[l].tag)
            && (forall k :: 0 <= k < |records| ==> NoRepeats(records[k].roles) && NoRepeats(records[k].workers))
    ensures forall tag :: (exists k :: 0 <= k < |Required(entries)| && Required(entries)[k].tag == tag)
                          <==> tag in Images(entries)
    ensures forall k, role | 0 <= k < |Required(entries)| ::
              role in Required(entries)[k].roles <==> HasRole(entries, Required(entries)[k].tag, role)
    ensures forall k, worker | 0 <= k < |Required(entries)| ::
              worker in Required(entries)[k].workers <==> HasWorker(entries, Required(entries)[k].tag, worker)
  {
    hide FirstSeen, HasRole, HasWorker;
    var records, tags := Required(entries), FirstSeen(Images(entries));
    forall tag | tag in Images(entries) ensures exists k :: 0 <= k < |records| && records[k].tag == tag {
      var k :| 0 <= k < |tags| && tags[k] == tag;
      assert records[k].tag == tag;
    }
    forall k | 0 <= k < |records| ensures records[k].tag in Images(entries) {
      assert tags[k] in tags;
    }
    forall k, role | 0 <= k < |records|
      ensures role in records[k].roles <==> HasRole(entries, records[k].tag, role)
    {
      RolesAreThere(entries, tags[k], role);
    }
    forall k, worker | 0 <= k < |records|
      ensures worker in records[k].workers <==> HasWorker(entries, records[k].tag, worker)
    {
      WorkersAreThere(entries, tags[k], worker);
    }
  }

  predicate NoRepeats(xs: seq<string>) { forall i, j :: 0 <= i < j < |xs| ==> xs[i] != xs[j] }

  ghost predicate HasRole(entries: seq<Requirement>, tag: string, role: string) {
    exists i :: 0 <= i < |entries| && entries[i].image == tag && entries[i].role == role
  }

  ghost predicate HasWorker(entries: seq<Requirement>, tag: string, worker: string) {
    exists i :: 0 <= i < |entries| && entries[i].image == tag && entries[i].workerId == worker
  }

  lemma {:induction false} RolesAreThere(entries: seq<Requirement>, tag: string, role: string)
    ensures role in RolesOf(entries, tag) <==> HasRole(entries, tag, role)
  {
    if entries != [] {
      var n := |entries| - 1;
      RolesAreThere(entries[..n], tag, role);
      assert forall i | 0 <= i < n :: entries[..n][i] == entries[i];
    }
  }

  lemma {:induction false} WorkersAreThere(entries: seq<Requirement>, tag: string, worker: string)
    ensures worker in WorkersOf(entries, tag) <==> HasWorker(entries, tag, worker)
  {
    if entries != [] {
      var n := |entries| - 1;
      WorkersAreThere(entries[..n], tag, worker);
      assert forall i | 0 <= i < n :: entries[..n][i] == entries[i];
    }
  }

  /** The tag was printed for this very toolchain. */
  ghost predicate IsRendered(e: Requirement) {
    exists prefix, c :: IsClaim(c) && ColonFree(c) && c.toolchain == e.toolchain && e.image == ImageTag(prefix, c)
  }

  /** All requirements merged into one record share the toolchain it holds. */
  lemma MergedShareToolchain(entries: seq<Requirement>, k: nat, i: nat)
    requires forall j :: 0 <= j < |entries| ==> IsRendered(entries[j])
    requires k < |Required(entries)| && i < |entries| && entries[i].image == Required(entries)[k].tag
    ensures entries[i].toolchain == Required(entries)[k].toolchain
  {
    hide IsRendered, FirstSeen;
    var tag := entries[i].image;
    var j := FirstOn(entries, tag, i);
    RenderedToolchain(entries[i]);
    RenderedToolchain(entries[j]);
  }

  lemma {:induction false} FirstOn(entries: seq<Requirement>, tag: string, i: nat) returns (j: nat)
    requires i < |entries| && entries[i].image == tag
    ensures j < |entries| && entries[j].image == tag && ToolchainOf(entries, tag) == entries[j].toolchain
    decreases entries
  {
    if entries[0].image == tag {
      j := 0;
    } else {
      j := FirstOn(entries[1..], tag, i - 1);
      j := j + 1;
    }
  }

  lemma RenderedToolchain(e: Requirement)
    requires IsRendered(e)
    ensures ParseImageTag(e.image).Some? && ParseImageTag(e.image).value.toolchain == e.toolchain
  {
    hide ParseImageTag, ImageTag, IsClaim, ColonFree;
    var prefix, c :| IsClaim(c) && ColonFree(c) && c.toolchain == e.toolchain && e.image == ImageTag(prefix, c);
    PrintedTagIsRead(prefix, c);
  }

  // ------------------------------------------------------------------- the gate

  datatype Reason = Missing | Mismatched | Unverified

  /** What the host answers about a tag, the same each time it is asked. */
  datatype Host = Host(present: string -> bool, drifted: string -> bool, verified: string -> bool)

  function Failure(host: Host, tag: string): Option<Reason> {
    if !host.present(tag) then Some(Missing)
    else if host.drifted(tag) then Some(Mismatched)
    else if !host.verified(tag) then Some(Unverified)
    else None
  }

  datatype Verdict = Ready | Refused(tag: string, roles: seq<string>, reason: Reason)

  /** The first tag that fails. */
  function FirstFailing(host: Host, tags: seq<string>): Option<string> {
    if tags == [] then None
    else if Failure(host, tags[0]).Some? then Some(tags[0])
    else FirstFailing(host, tags[1..])
  }

  function Tags(records: seq<RequiredImage>): seq<string> {
    seq(|records|, i requires 0 <= i < |records| => records[i].tag)
  }

  method AssertImagesReady(required: seq<RequiredImage>, host: Host) returns (verdict: Verdict, ready: seq<string>)
    ensures verdict.Ready? <==> FirstFailing(host, Tags(required)).None?
    ensures verdict.Ready? ==> ready == Tags(required)
    ensures verdict.Refused? ==>
              && FirstFailing(host, Tags(required)) == Some(verdict.tag)
              && (verdict.reason == Missing <==> !host.present(verdict.tag))
              && (verdict.reason == Mismatched <==> host.present(verdict.tag) && host.drifted(verdict.tag))
              && (verdict.reason == Unverified ==> !host.verified(verdict.tag))
              && ready < Tags(required) && Tags(required)[|ready|] == verdict.tag
              && verdict.roles == required[|ready|].roles
  {
    hide FirstFailing;
    ready := [];
    for i := 0 to |required|
      invariant ready == Tags(required)[..i]
      invariant FirstFailing(host, Tags(required)) == FirstFailing(host, Tags(required)[i..])
    {
      var req := required[i];
      FailingStep(host, Tags(required)[i..]);
      assert Tags(required)[i..][1..] == Tags(required)[i + 1..];
      if !host.present(req.tag) { return Refused(req.tag, req.roles, Missing), ready; }
      if host.drifted(req.tag) { return Refused(req.tag, req.roles, Mismatched), ready; }
      if !host.verified(req.tag) { return Refused(req.tag, req.roles, Unverified), ready; }
      ready := ready + [req.tag];
    }
    NoneFailing(host);
    return Ready, ready;
  }

  lemma FailingStep(host: Host, tags: seq<string>)
    requires tags != []
    ensures FirstFailing(host, tags)
            == if Failure(host, tags[0]).Some? then Some(tags[0]) else FirstFailing(host, tags[1..])
  {
  }

  lemma NoneFailing(host: Host)
    ensures FirstFailing(host, []) == None
  {
  }

  lemma {:induction false} FailingLast(host: Host, tags: seq<string>, x: string)
    ensures FirstFailing(host, tags + [x])
            == if FirstFailing(host, tags).Some? then FirstFailing(host, tags)
               else if Failure(host, x).Some? then Some(x) else None
    decreases tags
  {
    hide Failure;
    if tags != [] {
      assert (tags + [x])[1..] == tags[1..] + [x];
      FailingLast(host, tags[1..], x);
    }
  }

  lemma {:induction false} FailingNone(host: Host, tags: seq<string>)
    ensures FirstFailing(host, tags).None? <==> forall i :: 0 <= i < |tags| ==> Failure(host, tags[i]).None?
    decreases tags
  {
    hide Failure;
    if tags != [] {
      FailingNone(host, tags[1..]);
      assert forall i | 0 < i < |tags| :: tags[i] == tags[1..][i - 1];
    }
  }

  lemma {:induction false} FirstSeenFails(host: Host, tags: seq<string>)
    ensures FirstFailing(host, FirstSeen(tags)) == FirstFailing(host, tags)
  {
    hide Failure, FirstFailing;
    if tags != [] {
      var before, x := tags[..|tags| - 1], tags[|tags| - 1];
      FirstSeenFails(host, before);
      assert tags == before + [x];
      FailingLast(host, before, x);
      FailingLast(host, FirstSeen(before), x);
      FailingNone(host, before);
    }
  }

  /** One check for each distinct tag decides for every worker: the gate's first failing tag is the
      image of the first requirement that fails, and the gate passes exactly when every worker's own
      image is present, undrifted and verified. */
  lemma GateDecidesForEveryWorker(host: Host, entries: seq<Requirement>)
    ensures FirstFailing(host, Tags(Required(entries))) == FirstFailing(host, Images(entries))
    ensures FirstFailing(host, Tags(Required(entries))).None?
            <==> forall i :: 0 <= i < |entries| ==>
                   host.present(entries[i].image) && !host.drifted(entries[i].image) && host.verified(entries[i].image)
  {
    hide FirstFailing, FirstSeen;
    assert Tags(Required(entries)) == FirstSeen(Images(entries));
    FirstSeenFails(host, Images(entries));
    FailingNone(host, Images(entries));
    assert forall i | 0 <= i < |entries| :: Images(entries)[i] == entries[i].image;
  }
}
