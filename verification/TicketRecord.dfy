/** The record of a ticket-ops artifact (`src/contracts.ts`) as a document: every text it holds is a leaf of
    the tree that the secret searches walk, under its own path, and the tree has no other leaf. */
module TicketRecord {
  import opened Optional
  import opened StringOps
  import opened DocumentTree

  datatype Mode = Replace | Append

  datatype Match = Exact | Sanitized | Mismatch | Unverified

  /** Best first. */
  datatype Status = Success | Partial | Blocked | Failed

  datatype FieldWrite =
    FieldWrite(field: string, mode: Mode, sent: string, readBack: Option<string>, match_: Match, detail: string)

  datatype Update = Update(ticket: string, requested: string, fields: seq<FieldWrite>, verdict: Status)

  datatype FieldRead = FieldRead(field: string, value: Option<string>)

  datatype Query = Query(ticket: string, fields: seq<FieldRead>)

  datatype Operation = Querying | Updating

  datatype Artifact = Artifact(
    taskId: string, worker: string, epoch: nat, operation: Operation, ticketHost: string, generatedAt: string,
    noChangeNeeded: bool, queried: seq<Query>, updates: seq<Update>, commands: seq<string>, verdict: Status,
    notes: string)

  // ------------------------------------------------------------ the document

  /** The document as a tree, keys in the order the schema lists them. */
  function TreeOf(a: Artifact): Node {
    Record([
      Field("schema", Text("pifleet.ticket-ops/v1")),
      Field("task_id", Text(a.taskId)),
      Field("worker", Text(a.worker)),
      Field("epoch", Other),
      Field("operation", Text(if a.operation == Querying then "query" else "update")),
      Field("ticket_host", Text(a.ticketHost)),
      Field("generated_at", Text(a.generatedAt)),
      Field("no_change_needed", Other),
      Field("queried", Items(seq(|a.queried|, i requires 0 <= i < |a.queried| => QueryTree(a.queried[i])))),
      Field("updates", Items(seq(|a.updates|, i requires 0 <= i < |a.updates| => UpdateTree(a.updates[i])))),
      Field("commands", Items(seq(|a.commands|, i requires 0 <= i < |a.commands| => Text(a.commands[i])))),
      Field("verdict", Text(StatusText(a.verdict))),
      Field("notes", Text(a.notes))])
  }

  function Nullable(s: Option<string>): Node { if s.Some? then Text(s.value) else Other }

  function QueryTree(q: Query): Node {
    Record([
      Field("ticket", Text(q.ticket)),
      Field("fields", Items(seq(|q.fields|, i requires 0 <= i < |q.fields| =>
        Record([Field("field", Text(q.fields[i].field)), Field("value", Nullable(q.fields[i].value))]))))])
  }

  function FieldTree(f: FieldWrite): Node {
    Record([
      Field("field", Text(f.field)),
      Field("mode", Text(if f.mode == Replace then "replace" else "append")),
      Field("sent", Text(f.sent)),
      Field("read_back", Nullable(f.readBack)),
      Field("match", Text(MatchText(f.match_))),
      Field("detail", Text(f.detail))])
  }

  function UpdateTree(u: Update): Node {
    Record([
      Field("ticket", Text(u.ticket)),
      Field("requested", Text(u.requested)),
      Field("fields", Items(seq(|u.fields|, i requires 0 <= i < |u.fields| => FieldTree(u.fields[i])))),
      Field("verdict", Text(StatusText(u.verdict)))])
  }

  function StatusText(s: Status): string {
    match s
    case Success => "success"
    case Partial => "partial"
    case Blocked => "blocked"
    case Failed => "failed"
  }

  function MatchText(m: Match): string {
    match m
    case Exact => "exact"
    case Sanitized => "sanitized"
    case Mismatch => "mismatch"
    case Unverified => "unverified"
  }

  // ---------------------------------------------------------- what it holds

  /** One field of a ticket, written or claimed, below `at`. */
  ghost predicate WriteHolds(f: FieldWrite, at: string, path: string, text: string) {
    || (path == at + ".field" && text == f.field)
    || (path == at + ".mode" && text == if f.mode == Replace then "replace" else "append")
    || (path == at + ".sent" && text == f.sent)
    || (path == at + ".read_back" && f.readBack == Some(text))
    || (path == at + ".match" && text == MatchText(f.match_))
    || (path == at + ".detail" && text == f.detail)
  }

  ghost predicate UpdateHolds(u: Update, at: string, path: string, text: string) {
    || (path == at + ".ticket" && text == u.ticket)
    || (path == at + ".requested" && text == u.requested)
    || (exists j: nat | j < |u.fields| :: WriteHolds(u.fields[j], at + ".fields[" + NatText(j) + "]", path, text))
    || (path == at + ".verdict" && text == StatusText(u.verdict))
  }

  ghost predicate ReadHolds(f: FieldRead, at: string, path: string, text: string) {
    (path == at + ".field" && text == f.field) || (path == at + ".value" && f.value == Some(text))
  }

  ghost predicate QueryHolds(q: Query, at: string, path: string, text: string) {
    || (path == at + ".ticket" && text == q.ticket)
    || (exists j: nat | j < |q.fields| :: ReadHolds(q.fields[j], at + ".fields[" + NatText(j) + "]", path, text))
  }

  /** The artifact holds `text` at `path`. */
  ghost predicate Holds(a: Artifact, path: string, text: string) {
    || (path == "schema" && text == "pifleet.ticket-ops/v1")
    || (path == "task_id" && text == a.taskId)
    || (path == "worker" && text == a.worker)
    || (path == "operation" && text == if a.operation == Querying then "query" else "update")
    || (path == "ticket_host" && text == a.ticketHost)
    || (path == "generated_at" && text == a.generatedAt)
    || (exists i: nat | i < |a.queried| :: QueryHolds(a.queried[i], "queried[" + NatText(i) + "]", path, text))
    || (exists i: nat | i < |a.updates| :: UpdateHolds(a.updates[i], "updates[" + NatText(i) + "]", path, text))
    || (exists i: nat | i < |a.commands| :: path == "commands[" + NatText(i) + "]" && text == a.commands[i])
    || (path == "verdict" && text == StatusText(a.verdict))
    || (path == "notes" && text == a.notes)
  }

  // ------------------------------------------------------------------- leaves

  ghost predicate FieldLeaf(f: Field, start: string, path: string, value: string) {
    IsLeaf(f.node, KeyPath(start, f.key), path, value)
  }

  /** One of these fields has the leaf. */
  ghost predicate AnyLeaf(fields: seq<Field>, start: string, path: string, value: string) {
    exists k | 0 <= k < |fields| :: FieldLeaf(fields[k], start, path, value)
  }

  lemma RecordLeaf(fields: seq<Field>, start: string, path: string, value: string)
    ensures IsLeaf(Record(fields), start, path, value) <==> AnyLeaf(fields, start, path, value)
  {
  }

  lemma AnyCons(f: Field, rest: seq<Field>, start: string, path: string, value: string)
    ensures AnyLeaf([f] + rest, start, path, value)
            <==> FieldLeaf(f, start, path, value) || AnyLeaf(rest, start, path, value)
  {
    hide FieldLeaf;
    var all := [f] + rest;
    assert all[0] == f && forall k | 0 <= k < |rest| :: all[k + 1] == rest[k];
    if k :| 0 <= k < |all| && FieldLeaf(all[k], start, path, value) {
      assert k > 0 ==> all[k] == rest[k - 1];
    }
  }

  lemma AnyNone(start: string, path: string, value: string)
    ensures !AnyLeaf([], start, path, value)
  {
  }

  lemma TextLeaf(key: string, text: string, start: string, path: string, value: string)
    ensures FieldLeaf(Field(key, Text(text)), start, path, value) <==> path == KeyPath(start, key) && value == text
  {
  }

  lemma NullableLeaf(key: string, text: Option<string>, start: string, path: string, value: string)
    ensures FieldLeaf(Field(key, Nullable(text)), start, path, value)
            <==> path == KeyPath(start, key) && text == Some(value)
  {
  }

  lemma OtherLeaf(key: string, start: string, path: string, value: string)
    ensures !FieldLeaf(Field(key, Other), start, path, value)
  {
  }

  lemma ItemsLeaf(key: string, items: seq<Node>, start: string, path: string, value: string)
    ensures FieldLeaf(Field(key, Items(items)), start, path, value)
            <==> exists i: nat | i < |items| :: IsLeaf(items[i], ItemPath(KeyPath(start, key), i), path, value)
  {
  }

  lemma Below(at: string, key: string)
    requires at != ""
    ensures KeyPath(at, key) == at + ("." + key)
  {
  }

  lemma WritePaths(at: string)
    requires at != ""
    ensures KeyPath(at, "field") == at + ".field" && KeyPath(at, "mode") == at + ".mode"
    ensures KeyPath(at, "sent") == at + ".sent" && KeyPath(at, "read_back") == at + ".read_back"
    ensures KeyPath(at, "match") == at + ".match" && KeyPath(at, "detail") == at + ".detail"
  {
    hide KeyPath;
    Below(at, "field");
    Below(at, "mode");
    Below(at, "sent");
    Below(at, "read_back");
    Below(at, "match");
    Below(at, "detail");
    assert "." + "field" == ".field" && "." + "mode" == ".mode" && "." + "sent" == ".sent";
    assert "." + "read_back" == ".read_back" && "." + "match" == ".match" && "." + "detail" == ".detail";
  }

  lemma WriteLeaves(f: FieldWrite, at: string, path: string, text: string)
    requires at != ""
    ensures IsLeaf(FieldTree(f), at, path, text) <==> WriteHolds(f, at, path, text)
  {
    hide IsLeaf, FieldLeaf, AnyLeaf, Nullable, KeyPath, MatchText;
    var mode := if f.mode == Replace then "replace" else "append";
    var a, b, c := Field("field", Text(f.field)), Field("mode", Text(mode)), Field("sent", Text(f.sent));
    var d, e, g := Field("read_back", Nullable(f.readBack)), Field("match", Text(MatchText(f.match_))),
                   Field("detail", Text(f.detail));
    WritePaths(at);
    assert FieldTree(f) == Record([a] + ([b] + ([c] + ([d] + ([e] + ([g] + []))))));
    RecordLeaf([a] + ([b] + ([c] + ([d] + ([e] + ([g] + []))))), at, path, text);
    AnyCons(a, [b] + ([c] + ([d] + ([e] + ([g] + [])))), at, path, text);
    AnyCons(b, [c] + ([d] + ([e] + ([g] + []))), at, path, text);
    AnyCons(c, [d] + ([e] + ([g] + [])), at, path, text);
    AnyCons(d, [e] + ([g] + []), at, path, text);
    AnyCons(e, [g] + [], at, path, text);
    AnyCons(g, [], at, path, text);
    AnyNone(at, path, text);
    TextLeaf("field", f.field, at, path, text);
    TextLeaf("mode", mode, at, path, text);
    TextLeaf("sent", f.sent, at, path, text);
    NullableLeaf("read_back", f.readBack, at, path, text);
    TextLeaf("match", MatchText(f.match_), at, path, text);
    TextLeaf("detail", f.detail, at, path, text);
  }

  /** The items of a list, by their own places. */
  lemma ListPlace(at: string, key: string, i: nat)
    ensures ItemPath(KeyPath(at, key), i) == (if at == "" then key else at + ("." + key)) + ("[" + NatText(i) + "]")
  {
  }

  lemma FieldPlaces(at: string, i: nat)
    requires at != ""
    ensures ItemPath(KeyPath(at, "fields"), i) == at + ".fields[" + NatText(i) + "]"
  {
    hide ItemPath, KeyPath, NatText;
    ListPlace(at, "fields", i);
    assert "." + "fields" == ".fields";
    assert at + ".fields" + ("[" + NatText(i) + "]") == at + ".fields[" + NatText(i) + "]";
  }

  lemma UpdatePaths(at: string)
    requires at != ""
    ensures KeyPath(at, "ticket") == at + ".ticket" && KeyPath(at, "requested") == at + ".requested"
    ensures KeyPath(at, "verdict") == at + ".verdict" && KeyPath(at, "value") == at + ".value"
  {
    hide KeyPath;
    Below(at, "ticket");
    Below(at, "requested");
    Below(at, "verdict");
    Below(at, "value");
    assert "." + "ticket" == ".ticket" && "." + "requested" == ".requested";
    assert "." + "verdict" == ".verdict" && "." + "value" == ".value";
  }

  lemma UpdateItems(u: Update, at: string, path: string, text: string)
    requires at != ""
    ensures (exists j: nat | j < |u.fields| ::
               IsLeaf(UpdateTree(u).fields[2].node.items[j], ItemPath(KeyPath(at, "fields"), j), path, text))
            <==> exists j: nat | j < |u.fields| ::
                   WriteHolds(u.fields[j], at + ".fields[" + NatText(j) + "]", path, text)
  {
    hide IsLeaf, WriteHolds, FieldTree, ItemPath, KeyPath, NatText;
    forall j: nat | j < |u.fields|
      ensures IsLeaf(UpdateTree(u).fields[2].node.items[j], ItemPath(KeyPath(at, "fields"), j), path, text)
              <==> WriteHolds(u.fields[j], at + ".fields[" + NatText(j) + "]", path, text)
    {
      FieldPlaces(at, j);
      WriteLeaves(u.fields[j], at + ".fields[" + NatText(j) + "]", path, text);
    }
  }

  lemma UpdateLeaves(u: Update, at: string, path: string, text: string)
    requires at != ""
    ensures IsLeaf(UpdateTree(u), at, path, text) <==> UpdateHolds(u, at, path, text)
  {
    hide IsLeaf, FieldLeaf, AnyLeaf, KeyPath, StatusText, WriteHolds, FieldTree, NatText, ItemPath;
    var items := UpdateTree(u).fields[2].node.items;
    var a, b := Field("ticket", Text(u.ticket)), Field("requested", Text(u.requested));
    var c, d := Field("fields", Items(items)), Field("verdict", Text(StatusText(u.verdict)));
    UpdatePaths(at);
    assert UpdateTree(u) == Record([a] + ([b] + ([c] + ([d] + []))));
    RecordLeaf([a] + ([b] + ([c] + ([d] + []))), at, path, text);
    AnyCons(a, [b] + ([c] + ([d] + [])), at, path, text);
    AnyCons(b, [c] + ([d] + []), at, path, text);
    AnyCons(c, [d] + [], at, path, text);
    AnyCons(d, [], at, path, text);
    AnyNone(at, path, text);
    TextLeaf("ticket", u.ticket, at, path, text);
    TextLeaf("requested", u.requested, at, path, text);
    ItemsLeaf("fields", items, at, path, text);
    TextLeaf("verdict", StatusText(u.verdict), at, path, text);
    UpdateItems(u, at, path, text);
  }

  lemma ReadLeaves(f: FieldRead, at: string, path: string, text: string)
    requires at != ""
    ensures IsLeaf(Record([Field("field", Text(f.field)), Field("value", Nullable(f.value))]), at, path, text)
            <==> ReadHolds(f, at, path, text)
  {
    hide IsLeaf, FieldLeaf, AnyLeaf, Nullable, KeyPath;
    var a, b := Field("field", Text(f.field)), Field("value", Nullable(f.value));
    WritePaths(at);
    UpdatePaths(at);
    assert [a, b] == [a] + ([b] + []);
    RecordLeaf([a] + ([b] + []), at, path, text);
    AnyCons(a, [b] + [], at, path, text);
    AnyCons(b, [], at, path, text);
    AnyNone(at, path, text);
    TextLeaf("field", f.field, at, path, text);
    NullableLeaf("value", f.value, at, path, text);
  }

  lemma QueryLeaves(q: Query, at: string, path: string, text: string)
    requires at != ""
    ensures IsLeaf(QueryTree(q), at, path, text) <==> QueryHolds(q, at, path, text)
  {
    hide IsLeaf, FieldLeaf, AnyLeaf, KeyPath, ReadHolds, NatText, ItemPath, Nullable;
    var items := QueryTree(q).fields[1].node.items;
    var a, b := Field("ticket", Text(q.ticket)), Field("fields", Items(items));
    UpdatePaths(at);
    assert QueryTree(q) == Record([a] + ([b] + []));
    RecordLeaf([a] + ([b] + []), at, path, text);
    AnyCons(a, [b] + [], at, path, text);
    AnyCons(b, [], at, path, text);
    AnyNone(at, path, text);
    TextLeaf("ticket", q.ticket, at, path, text);
    ItemsLeaf("fields", items, at, path, text);
    forall j: nat | j < |q.fields|
      ensures IsLeaf(items[j], ItemPath(KeyPath(at, "fields"), j), path, text)
              <==> ReadHolds(q.fields[j], at + ".fields[" + NatText(j) + "]", path, text)
    {
      FieldPlaces(at, j);
      ReadLeaves(q.fields[j], at + ".fields[" + NatText(j) + "]", path, text);
    }
  }

  lemma TopPlaces(i: nat)
    ensures ItemPath(KeyPath("", "queried"), i) == "queried[" + NatText(i) + "]"
    ensures ItemPath(KeyPath("", "updates"), i) == "updates[" + NatText(i) + "]"
    ensures ItemPath(KeyPath("", "commands"), i) == "commands[" + NatText(i) + "]"
  {
    hide NatText;
    assert "queried" + ("[" + NatText(i) + "]") == "queried[" + NatText(i) + "]";
    assert "updates" + ("[" + NatText(i) + "]") == "updates[" + NatText(i) + "]";
    assert "commands" + ("[" + NatText(i) + "]") == "commands[" + NatText(i) + "]";
  }

  lemma TopLists(a: Artifact, path: string, text: string)
    ensures FieldLeaf(TreeOf(a).fields[8], "", path, text)
            <==> exists i: nat | i < |a.queried| :: QueryHolds(a.queried[i], "queried[" + NatText(i) + "]", path, text)
    ensures FieldLeaf(TreeOf(a).fields[9], "", path, text)
            <==> exists i: nat | i < |a.updates| :: UpdateHolds(a.updates[i], "updates[" + NatText(i) + "]", path, text)
    ensures FieldLeaf(TreeOf(a).fields[10], "", path, text)
            <==> exists i: nat | i < |a.commands| :: path == "commands[" + NatText(i) + "]" && text == a.commands[i]
  {
    hide IsLeaf, FieldLeaf, QueryHolds, UpdateHolds, QueryTree, UpdateTree, NatText, ItemPath, KeyPath, StatusText;
    var keys := TreeOf(a).fields;
    ItemsLeaf("queried", keys[8].node.items, "", path, text);
    ItemsLeaf("updates", keys[9].node.items, "", path, text);
    ItemsLeaf("commands", keys[10].node.items, "", path, text);
    forall i: nat | i < |a.queried|
      ensures IsLeaf(keys[8].node.items[i], ItemPath(KeyPath("", "queried"), i), path, text)
              <==> QueryHolds(a.queried[i], "queried[" + NatText(i) + "]", path, text)
    {
      TopPlaces(i);
      QueryLeaves(a.queried[i], "queried[" + NatText(i) + "]", path, text);
    }
    forall i: nat | i < |a.updates|
      ensures IsLeaf(keys[9].node.items[i], ItemPath(KeyPath("", "updates"), i), path, text)
              <==> UpdateHolds(a.updates[i], "updates[" + NatText(i) + "]", path, text)
    {
      TopPlaces(i);
      UpdateLeaves(a.updates[i], "updates[" + NatText(i) + "]", path, text);
    }
    forall i: nat | i < |a.commands|
      ensures IsLeaf(keys[10].node.items[i], ItemPath(KeyPath("", "commands"), i), path, text)
              <==> path == "commands[" + NatText(i) + "]" && text == a.commands[i]
    {
      TopPlaces(i);
      OneText(a.commands[i], "commands[" + NatText(i) + "]", path, text);
    }
  }

  lemma OneText(t: string, at: string, path: string, text: string)
    ensures IsLeaf(Text(t), at, path, text) <==> path == at && text == t
  {
  }

  /** The leaves of the document are exactly the texts the artifact holds, each under its own path. */
  lemma DocumentHolds(a: Artifact, path: string, text: string)
    ensures IsLeaf(TreeOf(a), "", path, text) <==> Holds(a, path, text)
  {
    hide IsLeaf, FieldLeaf, AnyLeaf, QueryHolds, UpdateHolds, QueryTree, UpdateTree, NatText, StatusText;
    var keys := TreeOf(a).fields;
    TopLists(a, path, text);
    RecordLeaf(keys, "", path, text);
    TopTexts(a, path, text);
    TopFields(keys, path, text);
  }

  /** Thirteen fields, one by one. */
  lemma TopFields(keys: seq<Field>, path: string, text: string)
    requires |keys| == 13
    ensures AnyLeaf(keys, "", path, text)
            <==> || FieldLeaf(keys[0], "", path, text) || FieldLeaf(keys[1], "", path, text)
                 || FieldLeaf(keys[2], "", path, text) || FieldLeaf(keys[3], "", path, text)
                 || FieldLeaf(keys[4], "", path, text) || FieldLeaf(keys[5], "", path, text)
                 || FieldLeaf(keys[6], "", path, text) || FieldLeaf(keys[7], "", path, text)
                 || FieldLeaf(keys[8], "", path, text) || FieldLeaf(keys[9], "", path, text)
                 || FieldLeaf(keys[10], "", path, text) || FieldLeaf(keys[11], "", path, text)
                 || FieldLeaf(keys[12], "", path, text)
  {
    hide FieldLeaf;
  }

  lemma TopTexts(a: Artifact, path: string, text: string)
    ensures FieldLeaf(TreeOf(a).fields[0], "", path, text) <==> path == "schema" && text == "pifleet.ticket-ops/v1"
    ensures FieldLeaf(TreeOf(a).fields[1], "", path, text) <==> path == "task_id" && text == a.taskId
    ensures FieldLeaf(TreeOf(a).fields[2], "", path, text) <==> path == "worker" && text == a.worker
    ensures !FieldLeaf(TreeOf(a).fields[3], "", path, text) && !FieldLeaf(TreeOf(a).fields[7], "", path, text)
    ensures FieldLeaf(TreeOf(a).fields[4], "", path, text)
            <==> path == "operation" && text == if a.operation == Querying then "query" else "update"
    ensures FieldLeaf(TreeOf(a).fields[5], "", path, text) <==> path == "ticket_host" && text == a.ticketHost
    ensures FieldLeaf(TreeOf(a).fields[6], "", path, text) <==> path == "generated_at" && text == a.generatedAt
    ensures FieldLeaf(TreeOf(a).fields[11], "", path, text) <==> path == "verdict" && text == StatusText(a.verdict)
    ensures FieldLeaf(TreeOf(a).fields[12], "", path, text) <==> path == "notes" && text == a.notes
  {
    hide IsLeaf, FieldLeaf, QueryTree, UpdateTree, StatusText;
    TextLeaf("schema", "pifleet.ticket-ops/v1", "", path, text);
    TextLeaf("task_id", a.taskId, "", path, text);
    TextLeaf("worker", a.worker, "", path, text);
    OtherLeaf("epoch", "", path, text);
    TextLeaf("operation", if a.operation == Querying then "query" else "update", "", path, text);
    TextLeaf("ticket_host", a.ticketHost, "", path, text);
    TextLeaf("generated_at", a.generatedAt, "", path, text);
    OtherLeaf("no_change_needed", "", path, text);
    TextLeaf("verdict", StatusText(a.verdict), "", path, text);
    TextLeaf("notes", a.notes, "", path, text);
  }
}
