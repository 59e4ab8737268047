/** The ticket-ops artifact (`src/contracts.ts`): what was sent to a ticket system and what a second
    read returned, the claim made about each field, and the verdicts that rest on those claims. */
module TicketOps {
  import opened Optional
  import opened StringOps
  import opened CredentialShapes
  import opened DocumentTree
  import opened TicketRecord

  // --------------------------------------------------------------- one field

  datatype FieldIssue = Disagrees | ExactDiffers | DifferentEquals | NeedsDetail

  /** What the two recorded values say, whatever the claim beside them. */
  function Measured(f: FieldWrite): Status {
    if f.readBack.None? then Failed else if f.readBack.value == f.sent then Success else Partial
  }

  function MatchFloor(m: Match): Status {
    match m
    case Exact => Success
    case Sanitized => Partial
    case Mismatch => Partial
    case Unverified => Failed
  }

  /** The claim is the one the two values support, and anything but `exact` says what differed. */
  predicate Consistent(f: FieldWrite) {
    && (f.match_ == Unverified <==> f.readBack.None?)
    && (f.match_ == Exact <==> f.readBack == Some(f.sent))
    && (f.match_ != Exact ==> Trim(f.detail) != "")
  }

  method RefineField(f: FieldWrite) returns (issues: seq<FieldIssue>)
    ensures issues == [] <==> Consistent(f)
    ensures Disagrees in issues ==> issues == [Disagrees]
  {
    issues := [];
    if f.readBack.None? != (f.match_ == Unverified) {
      return [Disagrees];
    }
    if f.match_ == Exact && f.readBack != Some(f.sent) {
      issues := issues + [ExactDiffers];
    }
    if (f.match_ == Sanitized || f.match_ == Mismatch) && f.readBack == Some(f.sent) {
      issues := issues + [DifferentEquals];
    }
    if f.match_ != Exact && Trim(f.detail) == "" {
      issues := issues + [NeedsDetail];
    }
  }

  /** A claim that passes puts the same floor under the verdict as the measurement itself. */
  lemma ClaimIsMeasurement(f: FieldWrite)
    requires Consistent(f)
    ensures MatchFloor(f.match_) == Measured(f)
  {
    hide Trim;
  }

  // -------------------------------------------------------------- one ticket

  function Rank(s: Status): nat {
    match s
    case Success => 0
    case Partial => 1
    case Blocked => 2
    case Failed => 3
  }

  /** No better than what any field of the ticket supports. */
  predicate Supported(u: Update) {
    forall i :: 0 <= i < |u.fields| ==> Rank(MatchFloor(u.fields[i].match_)) <= Rank(u.verdict)
  }

  predicate SoundUpdate(u: Update) {
    (forall i :: 0 <= i < |u.fields| ==> Consistent(u.fields[i])) && Supported(u)
  }

  method RefineUpdate(u: Update) returns (ok: bool)
    ensures ok <==> Supported(u)
  {
    var floor := Success;
    for i := 0 to |u.fields|
      invariant forall j :: 0 <= j < i ==> Rank(MatchFloor(u.fields[j].match_)) <= Rank(floor)
      invariant floor == Success || exists j :: 0 <= j < i && MatchFloor(u.fields[j].match_) == floor
    {
      var m := MatchFloor(u.fields[i].match_);
      if Rank(m) > Rank(floor) {
        floor := m;
      }
    }
    ok := Rank(u.verdict) >= Rank(floor);
  }

  // ------------------------------------------------------------ the artifact

  /** The updates recorded are the ones the operation and `no_change_needed` allow. */
  predicate Accounted(a: Artifact) {
    match a.operation
    case Querying => a.updates == []
    case Updating => a.noChangeNeeded <==> a.updates == []
  }

  predicate SupportedByTickets(a: Artifact) {
    forall i :: 0 <= i < |a.updates| ==> Rank(a.updates[i].verdict) <= Rank(a.verdict)
  }

  predicate Unmarked(text: string) { !HasAuthHeader(text) && !HasCredentialQuery(text) }

  ghost predicate UnmarkedLeaves(node: Node) {
    forall path, value :: IsLeaf(node, "", path, value) ==> Unmarked(value)
  }

  /** No text of the artifact records a credential. */
  ghost predicate UnmarkedTexts(a: Artifact) { forall path, text :: Holds(a, path, text) ==> Unmarked(text) }

  /** `path` leads to a text of the artifact that holds one of the secrets that are not blank. */
  ghost predicate HoldsSecret(a: Artifact, secrets: seq<string>, path: string) {
    exists text, secret ::
      Holds(a, path, text) && secret in secrets && Trim(secret) != "" && Contains(text, secret)
  }

  lemma TextsAreLeaves(a: Artifact, secrets: seq<string>)
    ensures UnmarkedLeaves(TreeOf(a)) <==> UnmarkedTexts(a)
    ensures Leaks(TreeOf(a), secrets) <==> exists path :: HoldsSecret(a, secrets, path)
    ensures forall path :: LeaksAt(TreeOf(a), secrets, path) <==> HoldsSecret(a, secrets, path)
  {
    hide Holds, IsLeaf, Unmarked, Trim, Contains, TreeOf;
    forall path, text ensures IsLeaf(TreeOf(a), "", path, text) <==> Holds(a, path, text) && path != "" {
      DocumentHolds(a, path, text);
      if Holds(a, path, text) { PathsAreNamed(a, path, text); }
    }
    assert forall path, text :: IsLeaf(TreeOf(a), "", path, text) ==> Holds(a, path, text);
    forall path, text | Holds(a, path, text) ensures path != "" {
      PathsAreNamed(a, path, text);
    }
    forall path | HoldsSecret(a, secrets, path) ensures LeaksAt(TreeOf(a), secrets, path) && Leaks(TreeOf(a), secrets) {
      var text, secret :| Holds(a, path, text) && secret in secrets && Trim(secret) != "" && Contains(text, secret);
      assert IsLeaf(TreeOf(a), "", path, text) && ShownPath(path) == path && IsNeedle(secret);
    }
    forall path | LeaksAt(TreeOf(a), secrets, path) ensures HoldsSecret(a, secrets, path) {
      var at, text, secret :|
        && IsLeaf(TreeOf(a), "", at, text) && ShownPath(at) == path
        && secret in secrets && IsNeedle(secret) && Contains(text, secret);
      assert Holds(a, at, text) && at == path;
    }
    if Leaks(TreeOf(a), secrets) {
      var path, text, secret :|
        IsLeaf(TreeOf(a), "", path, text) && secret in secrets && IsNeedle(secret) && Contains(text, secret);
      assert HoldsSecret(a, secrets, path);
    }
  }

  lemma PathsAreNamed(a: Artifact, path: string, text: string)
    requires Holds(a, path, text)
    ensures path != ""
  {
    hide NatText, StatusText, MatchText;
  }

  /** Every rule of the schema holds, at each of its three levels. */
  ghost predicate Sound(a: Artifact) {
    && (forall i :: 0 <= i < |a.updates| ==> SoundUpdate(a.updates[i]))
    && Accounted(a) && SupportedByTickets(a) && UnmarkedTexts(a)
  }

  method CheckUpdate(u: Update) returns (ok: bool)
    ensures ok <==> SoundUpdate(u)
  {
    ok := true;
    for i := 0 to |u.fields|
      invariant ok <==> forall j :: 0 <= j < i ==> Consistent(u.fields[j])
    {
      var issues := RefineField(u.fields[i]);
      ok := ok && issues == [];
    }
    var supported := RefineUpdate(u);
    ok := ok && supported;
  }

  method RefineArtifact(a: Artifact) returns (ok: bool)
    ensures ok <==> Accounted(a) && SupportedByTickets(a) && UnmarkedTexts(a)
  {
    hide UnmarkedLeaves, UnmarkedTexts;
    ok := true;
    if a.operation == Querying && |a.updates| > 0 { ok := false; }
    if a.operation == Updating && a.noChangeNeeded && |a.updates| > 0 { ok := false; }
    if a.operation == Updating && !a.noChangeNeeded && |a.updates| == 0 { ok := false; }
    var floor := Success;
    for i := 0 to |a.updates|
      invariant forall j :: 0 <= j < i ==> Rank(a.updates[j].verdict) <= Rank(floor)
      invariant floor == Success || exists j :: 0 <= j < i && a.updates[j].verdict == floor
    {
      if Rank(a.updates[i].verdict) > Rank(floor) {
        floor := a.updates[i].verdict;
      }
    }
    if Rank(a.verdict) < Rank(floor) { ok := false; }
    assert ok <==> Accounted(a) && SupportedByTickets(a);
    var unmarked := CheckStrings(TreeOf(a));
    TextsAreLeaves(a, []);
    ok := ok && unmarked;
  }

  method CheckStrings(node: Node) returns (ok: bool)
    ensures ok <==> UnmarkedLeaves(node)
  {
    hide Strings, HasAuthHeader, HasCredentialQuery, UnmarkedLeaves;
    var out := new Accumulator();
    WalkStrings(node, "", out);
    var strings := out.found;
    assert strings == Strings(node, "");
    ok := true;
    for i := 0 to |strings|
      invariant ok <==> forall j :: 0 <= j < i ==> Unmarked(strings[j].value)
    {
      if HasAuthHeader(strings[i].value) { ok := false; }
      if HasCredentialQuery(strings[i].value) { ok := false; }
    }
    UnmarkedStrings(node);
  }

  lemma UnmarkedStrings(node: Node)
    ensures UnmarkedLeaves(node) <==> forall j :: 0 <= j < |Strings(node, "")| ==> Unmarked(Strings(node, "")[j].value)
  {
    hide Unmarked, IsLeaf, Strings;
    var strings := Strings(node, "");
    forall j | 0 <= j < |strings| ensures IsLeaf(node, "", strings[j].path, strings[j].value) {
      assert strings[j] == Found(strings[j].path, strings[j].value);
      WalkFindsLeaves(node, "", strings[j].path, strings[j].value);
    }
    forall path, value | IsLeaf(node, "", path, value)
      ensures exists j :: 0 <= j < |strings| && strings[j].value == value
    {
      WalkFindsLeaves(node, "", path, value);
      var j :| 0 <= j < |strings| && strings[j] == Found(path, value);
    }
  }

  datatype Outcome = Parsed(artifact: Artifact) | Invalid | Leaking(paths: seq<string>)

  /** An artifact comes back exactly when every rule holds and no text of it holds a secret that is not
      blank; one that is sound but holds one is refused with the paths of all that do. */
  method ParseTicketOpsArtifact(a: Artifact, secrets: seq<string>) returns (outcome: Outcome)
    ensures outcome == Parsed(a) <==> Sound(a) && forall path :: !HoldsSecret(a, secrets, path)
    ensures outcome.Parsed? ==> outcome.artifact == a
    ensures outcome.Parsed? ==> (a.updates == [] <==> a.operation == Querying || a.noChangeNeeded)
    ensures outcome.Leaking? ==>
              Sound(a) && forall path :: path in outcome.paths <==> HoldsSecret(a, secrets, path)
    ensures outcome.Invalid? <==> !Sound(a)
  {
    hide UnmarkedTexts, SoundUpdate, HoldsSecret, LeaksAt, Leaks, TreeOf;
    var ok := true;
    for i := 0 to |a.updates|
      invariant ok <==> forall j :: 0 <= j < i ==> SoundUpdate(a.updates[j])
    {
      var sound := CheckUpdate(a.updates[i]);
      ok := ok && sound;
    }
    var refined := RefineArtifact(a);
    if !ok || !refined { return Invalid; }
    var leaks := FindCredentialLeaks(TreeOf(a), secrets);
    TextsAreLeaves(a, secrets);
    if |leaks| > 0 { return Leaking(leaks); }
    return Parsed(a);
  }

  // ------------------------------------------------------------- main results

  /** At each level the verdict is no better than what was measured on any field below it. */
  lemma VerdictIsBoundedByMeasurement(a: Artifact, i: nat, j: nat)
    requires Sound(a) && i < |a.updates| && j < |a.updates[i].fields|
    ensures Rank(Measured(a.updates[i].fields[j])) <= Rank(a.updates[i].verdict) <= Rank(a.verdict)
  {
    hide UnmarkedTexts, Consistent;
    ClaimIsMeasurement(a.updates[i].fields[j]);
  }

  /** `success` means that every value sent was read back; a field nobody could read again makes the whole
      artifact `failed`; and a field that did not come back as sent says what happened. */
  lemma SuccessMeansReadBack(a: Artifact, i: nat, j: nat)
    requires Sound(a) && i < |a.updates| && j < |a.updates[i].fields|
    ensures a.verdict == Success ==> a.updates[i].fields[j].readBack == Some(a.updates[i].fields[j].sent)
    ensures a.updates[i].fields[j].readBack.None? ==> a.verdict == Failed
    ensures a.updates[i].fields[j].readBack != Some(a.updates[i].fields[j].sent) ==>
              Trim(a.updates[i].fields[j].detail) != ""
  {
    hide UnmarkedTexts, Trim;
    VerdictIsBoundedByMeasurement(a, i, j);
    assert Consistent(a.updates[i].fields[j]);
  }

  /** What a worker who claims just what was measured may always say. */
  function Honest(f: FieldWrite): FieldWrite {
    f.(match_ := if f.readBack.None? then Unverified else if f.readBack.value == f.sent then Exact else Mismatch)
  }

  function Worst(fields: seq<FieldWrite>): Status {
    if fields == [] then Success
    else if Rank(Measured(fields[0])) >= Rank(Worst(fields[1..])) then Measured(fields[0])
    else Worst(fields[1..])
  }

  /** For honest claims the schema takes exactly the verdicts that rank no better than the worst
      measurement: the bound is met, and it is not stricter than the evidence. */
  lemma HonestVerdicts(u: Update)
    requires forall i :: 0 <= i < |u.fields| ==> Honest(u.fields[i]) == u.fields[i] && Trim(u.fields[i].detail) != ""
    ensures SoundUpdate(u) <==> Rank(Worst(u.fields)) <= Rank(u.verdict)
  {
    hide Trim;
    assert forall i | 0 <= i < |u.fields| ::
        Consistent(u.fields[i]) && MatchFloor(u.fields[i].match_) == Measured(u.fields[i]);
    WorstIsReached(u.fields);
  }

  lemma {:induction false} WorstIsReached(fields: seq<FieldWrite>)
    ensures forall i :: 0 <= i < |fields| ==> Rank(Measured(fields[i])) <= Rank(Worst(fields))
    ensures Worst(fields) == Success || exists i :: 0 <= i < |fields| && Measured(fields[i]) == Worst(fields)
  {
    if fields != [] {
      WorstIsReached(fields[1..]);
      assert forall i | 0 < i < |fields| :: fields[i] == fields[1..][i - 1];
    }
  }

  // ------------------------------------------------------------ nothing leaks

  /** In an artifact that parses nothing anywhere holds a secret or records a credential: not its head, not a
      command, not a note, not what was queried, and nothing that went over the wire or came back. */
  lemma ParsedHoldsNoSecret(a: Artifact, secrets: seq<string>, secret: string)
    requires Sound(a) && (forall path :: !HoldsSecret(a, secrets, path)) && secret in secrets && Trim(secret) != ""
    ensures Clean(a.taskId, secret) && Clean(a.worker, secret) && Clean(a.ticketHost, secret)
    ensures Clean(a.generatedAt, secret) && Clean(a.notes, secret)
    ensures forall i :: 0 <= i < |a.commands| ==> Clean(a.commands[i], secret)
    ensures forall i :: 0 <= i < |a.queried| ==> Clean(a.queried[i].ticket, secret)
    ensures forall i, j :: 0 <= i < |a.queried| && 0 <= j < |a.queried[i].fields| ==>
              var f := a.queried[i].fields[j];
              Clean(f.field, secret) && (f.value.Some? ==> Clean(f.value.value, secret))
    ensures forall i :: 0 <= i < |a.updates| ==>
              Clean(a.updates[i].ticket, secret) && Clean(a.updates[i].requested, secret)
    ensures forall i, j :: 0 <= i < |a.updates| && 0 <= j < |a.updates[i].fields| ==>
              var f := a.updates[i].fields[j];
              && Clean(f.field, secret) && Clean(f.sent, secret) && Clean(f.detail, secret)
              && (f.readBack.Some? ==> Clean(f.readBack.value, secret))
  {
    hide Trim, Contains, Unmarked, Holds, Sound, Clean, AllClean;
    assert AllClean(a, secret) by { EveryTextIsClean(a, secrets, secret); }
    HeadIsClean(a, secret);
    forall i: nat, j: nat | i < |a.queried| && j < |a.queried[i].fields|
      ensures var f := a.queried[i].fields[j];
              Clean(f.field, secret) && (f.value.Some? ==> Clean(f.value.value, secret))
    {
      ReadIsClean(a, secret, i, j);
    }
    forall i: nat, j: nat | i < |a.updates| && j < |a.updates[i].fields|
      ensures var f := a.updates[i].fields[j];
              && Clean(f.field, secret) && Clean(f.sent, secret) && Clean(f.detail, secret)
              && (f.readBack.Some? ==> Clean(f.readBack.value, secret))
    {
      WriteIsClean(a, secret, i, j);
    }
  }

  ghost predicate AllClean(a: Artifact, secret: string) {
    forall path, text :: Holds(a, path, text) ==> Clean(text, secret)
  }

  lemma EveryTextIsClean(a: Artifact, secrets: seq<string>, secret: string)
    requires Sound(a) && (forall path :: !HoldsSecret(a, secrets, path)) && secret in secrets && Trim(secret) != ""
    ensures AllClean(a, secret)
  {
    hide Trim, Contains, Unmarked, Holds, Sound;
    forall path, text | Holds(a, path, text) ensures Clean(text, secret) {
      assert !HoldsSecret(a, secrets, path);
      SoundIsUnmarked(a, path, text);
    }
  }

  lemma HeadIsClean(a: Artifact, secret: string)
    requires AllClean(a, secret)
    ensures Clean(a.taskId, secret) && Clean(a.worker, secret) && Clean(a.ticketHost, secret)
    ensures Clean(a.generatedAt, secret) && Clean(a.notes, secret)
    ensures forall i :: 0 <= i < |a.commands| ==> Clean(a.commands[i], secret)
    ensures forall i :: 0 <= i < |a.queried| ==> Clean(a.queried[i].ticket, secret)
    ensures forall i :: 0 <= i < |a.updates| ==>
              Clean(a.updates[i].ticket, secret) && Clean(a.updates[i].requested, secret)
  {
    hide Clean, Holds, NatText;
    HeadIsHeld(a);
    forall i: nat | i < |a.commands| ensures Clean(a.commands[i], secret) {
      CommandIsHeld(a, i);
    }
    forall i: nat | i < |a.queried| ensures Clean(a.queried[i].ticket, secret) {
      QueryIsHeld(a, i, "queried[" + NatText(i) + "]" + ".ticket", a.queried[i].ticket);
    }
    forall i: nat | i < |a.updates|
      ensures Clean(a.updates[i].ticket, secret) && Clean(a.updates[i].requested, secret)
    {
      UpdateIsHeld(a, i, "updates[" + NatText(i) + "]" + ".ticket", a.updates[i].ticket);
      UpdateIsHeld(a, i, "updates[" + NatText(i) + "]" + ".requested", a.updates[i].requested);
    }
  }

  lemma ReadIsClean(a: Artifact, secret: string, i: nat, j: nat)
    requires AllClean(a, secret) && i < |a.queried| && j < |a.queried[i].fields|
    ensures var f := a.queried[i].fields[j]; Clean(f.field, secret) && (f.value.Some? ==> Clean(f.value.value, secret))
  {
    hide Clean, Holds, NatText;
    var f, at := a.queried[i].fields[j], "queried[" + NatText(i) + "]" + ".fields[" + NatText(j) + "]";
    ReadIsHeld(a, i, j, at + ".field", f.field);
    if f.value.Some? { ReadIsHeld(a, i, j, at + ".value", f.value.value); }
  }

  lemma WriteIsClean(a: Artifact, secret: string, i: nat, j: nat)
    requires AllClean(a, secret) && i < |a.updates| && j < |a.updates[i].fields|
    ensures var f := a.updates[i].fields[j];
            && Clean(f.field, secret) && Clean(f.sent, secret) && Clean(f.detail, secret)
            && (f.readBack.Some? ==> Clean(f.readBack.value, secret))
  {
    hide Clean, Holds, NatText;
    var f, at := a.updates[i].fields[j], "updates[" + NatText(i) + "]" + ".fields[" + NatText(j) + "]";
    WriteIsHeld(a, i, j, at + ".field", f.field);
    WriteIsHeld(a, i, j, at + ".sent", f.sent);
    WriteIsHeld(a, i, j, at + ".detail", f.detail);
    if f.readBack.Some? { WriteIsHeld(a, i, j, at + ".read_back", f.readBack.value); }
  }

  /** A text that holds neither this secret nor a recorded credential. */
  ghost predicate Clean(text: string, secret: string) { !Contains(text, secret) && Unmarked(text) }

  lemma SoundIsUnmarked(a: Artifact, path: string, text: string)
    requires Sound(a) && Holds(a, path, text)
    ensures Unmarked(text)
  {
    hide Holds, Unmarked;
  }

  lemma HeadIsHeld(a: Artifact)
    ensures Holds(a, "task_id", a.taskId) && Holds(a, "worker", a.worker) && Holds(a, "ticket_host", a.ticketHost)
    ensures Holds(a, "generated_at", a.generatedAt) && Holds(a, "notes", a.notes)
  {
    hide QueryHolds, UpdateHolds, NatText, StatusText;
  }

  lemma CommandIsHeld(a: Artifact, i: nat)
    requires i < |a.commands|
    ensures Holds(a, "commands[" + NatText(i) + "]", a.commands[i])
  {
    hide QueryHolds, UpdateHolds, NatText, StatusText;
  }

  lemma QueryIsHeld(a: Artifact, i: nat, path: string, text: string)
    requires i < |a.queried| && QueryHolds(a.queried[i], "queried[" + NatText(i) + "]", path, text)
    ensures Holds(a, path, text)
  {
    hide QueryHolds, UpdateHolds, NatText, StatusText;
  }

  lemma ReadIsHeld(a: Artifact, i: nat, j: nat, path: string, text: string)
    requires i < |a.queried| && j < |a.queried[i].fields|
    requires var at := "queried[" + NatText(i) + "]" + ".fields[" + NatText(j) + "]";
             ReadHolds(a.queried[i].fields[j], at, path, text)
    ensures Holds(a, path, text)
  {
    hide ReadHolds, NatText, Holds;
    QueryIsHeld(a, i, path, text);
  }

  lemma UpdateIsHeld(a: Artifact, i: nat, path: string, text: string)
    requires i < |a.updates| && UpdateHolds(a.updates[i], "updates[" + NatText(i) + "]", path, text)
    ensures Holds(a, path, text)
  {
    hide QueryHolds, UpdateHolds, NatText, StatusText;
  }

  lemma WriteIsHeld(a: Artifact, i: nat, j: nat, path: string, text: string)
    requires i < |a.updates| && j < |a.updates[i].fields|
    requires var at := "updates[" + NatText(i) + "]" + ".fields[" + NatText(j) + "]";
             WriteHolds(a.updates[i].fields[j], at, path, text)
    ensures Holds(a, path, text)
  {
    hide WriteHolds, NatText, Holds;
    UpdateIsHeld(a, i, path, text);
  }
}
