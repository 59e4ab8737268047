/** The task drop: the header line and prompt the host renders (`src/run/dispatch-policy.ts`) and the
    header the worker's extension reads back (`docker/pi-extensions/dispatch-trigger.ts`). */
module StagedDrop {
  import opened Optional
  import opened Json

  const NEWLINE: Unit := 10
  const AT_SIGN: Unit := 64

  // "--- pifleet dispatch prompt ---"
  const SEPARATOR: Text := [45, 45, 45, 32, 112, 105, 102, 108, 101, 101, 116, 32, 100, 105, 115, 112, 97,
                            116, 99, 104, 32, 112, 114, 111, 109, 112, 116, 32, 45, 45, 45]
  // "pifleet.dispatch/v1"
  const SCHEMA: Text := [112, 105, 102, 108, 101, 101, 116, 46, 100, 105, 115, 112, 97, 116, 99, 104, 47,
                         118, 49]
  // "<none>"
  const TASK_POLICY_NONE: Text := [60, 110, 111, 110, 101, 62]

  const SCHEMA_KEY: Text := [115, 99, 104, 101, 109, 97]  // "schema"
  const STAGED_KEY: Text := [115, 116, 97, 103, 101, 100]  // "staged"
  const TASK_KEY: Text := [116, 97, 115, 107, 95, 105, 100]  // "task_id"
  const RUN_KEY: Text := [114, 117, 110, 95, 105, 100]  // "run_id"
  const WORKER_KEY: Text := [119, 111, 114, 107, 101, 114]  // "worker"
  const EPOCH_KEY: Text := [101, 112, 111, 99, 104]  // "epoch"
  const ATTEMPT_KEY: Text := [97, 116, 116, 101, 109, 112, 116]  // "attempt"
  const OUTBOX_KEY: Text := [111, 117, 116, 98, 111, 120]  // "outbox"
  const DISPATCHED_KEY: Text := [100, 105, 115, 112, 97, 116, 99, 104, 101, 100, 95, 97, 116]  // "dispatched_at"

  datatype Identity = Identity(
    taskId: Text, runId: Text, worker: Text, epoch: Number, attempt: Number, outbox: Text,
    dispatchedAt: Text)

  /** Finite numbers only, as the type of the field says. */
  predicate ValidIdentity(id: Identity) {
    ShortestDecimal(id.epoch) && ShortestDecimal(id.attempt)
  }

  // --------------------------------------------------------------------- host

  function HeaderValue(identity: Option<Identity>): (v: Value)
    requires identity.Some? ==> ValidIdentity(identity.value)
    ensures Printable(v)
  {
    match identity
    case None => Obj([Entry(SCHEMA_KEY, Str(SCHEMA)), Entry(STAGED_KEY, Bool(false))])
    case Some(id) =>
      Obj([Entry(SCHEMA_KEY, Str(SCHEMA)), Entry(STAGED_KEY, Bool(true)), Entry(TASK_KEY, Str(id.taskId)),
           Entry(RUN_KEY, Str(id.runId)), Entry(WORKER_KEY, Str(id.worker)), Entry(EPOCH_KEY, Num(id.epoch)),
           Entry(ATTEMPT_KEY, Num(id.attempt)), Entry(OUTBOX_KEY, Str(id.outbox)),
           Entry(DISPATCHED_KEY, Str(id.dispatchedAt))])
  }

  function HeaderLine(identity: Option<Identity>): Text
    requires identity.Some? ==> ValidIdentity(identity.value)
  {
    Stringify(HeaderValue(identity))
  }

  function RenderDrop(identity: Option<Identity>, prompt: Text): Text
    requires identity.Some? ==> ValidIdentity(identity.value)
  {
    HeaderLine(identity) + [NEWLINE] + SEPARATOR + [NEWLINE]
    + (if identity.None? then TASK_POLICY_NONE + [NEWLINE] else prompt)
  }

  // ------------------------------------------------------------------- worker

  /** `Thrown` is the one body the reader does not survive: a header line that is JSON `null`. */
  datatype Header = NoHeader | Staged(taskId: Text, epoch: Number) | Thrown

  predicate IsSpace(u: Unit) {
    9 <= u <= 13 || u == 32 || u == 160 || u == 0x1680 || 0x2000 <= u <= 0x200A || u == 0x2028
    || u == 0x2029 || u == 0x202F || u == 0x205F || u == 0x3000 || u == 0xFEFF
  }

  function TrimEnd(t: Text): Text {
    if t == [] || !IsSpace(t[|t| - 1]) then t else TrimEnd(t[..|t| - 1])
  }

  function IndexOf(t: Text, u: Unit): (i: int)
    ensures -1 <= i < |t|
    ensures i == -1 <==> u !in t
    ensures i >= 0 ==> t[i] == u && u !in t[..i]
  {
    if t == [] then -1
    else if t[0] == u then 0
    else
      var i := IndexOf(t[1..], u);
      if i < 0 then -1
      else
        assert t[..i + 1] == [t[0]] + t[1..][..i];
        i + 1
  }

  /** `JSON.parse` keeps the last of several equal keys. */
  function Property(members: seq<Entry<Value>>, key: Text): (v: Option<Value>)
    ensures v.Some? ==> exists i :: 0 <= i < |members| && members[i] == Entry(key, v.value)
  {
    if members == [] then None
    else if members[|members| - 1].key == key then Some(members[|members| - 1].value)
    else Property(members[..|members| - 1], key)
  }

  function HeaderOf(header: Value): (h: Header)
    requires Printable(header)
    ensures h.Staged? ==> ShortestDecimal(h.epoch)
  {
    if header.Null? then Thrown
    else if !header.Obj? then NoHeader
    else if Property(header.members, SCHEMA_KEY) != Some(Str(SCHEMA)) then NoHeader
    else if Property(header.members, STAGED_KEY) != Some(Bool(true)) then NoHeader
    else
      var task := Property(header.members, TASK_KEY);
      var epoch := Property(header.members, EPOCH_KEY);
      if task.None? || !task.value.Str? || epoch.None? || !epoch.value.Num? then NoHeader
      else
        assert Printable(epoch.value);
        Staged(task.value.s, epoch.value.x)
  }

  predicate OpensWithSeparator(rest: Text) {
    SEPARATOR + [NEWLINE] <= rest || TrimEnd(rest) == SEPARATOR
  }

  function ReadStagedHeader(body: Text): (h: Header)
    ensures h.Staged? ==> ShortestDecimal(h.epoch)
  {
    var nl := IndexOf(body, NEWLINE);
    if nl < 0 || !OpensWithSeparator(body[nl + 1..]) then NoHeader
    else
      var header := Parse(body[..nl]);
      if header.Unread? then NoHeader else HeaderOf(header.value)
  }

  // ----------------------------------------------------------- the reader's answer

  /** A printed value holds no control character, so the header is one line. */
  lemma {:induction false} StringifyIsOneLine(v: Value)
    requires Printable(v)
    ensures forall i :: 0 <= i < |Stringify(v)| ==> Stringify(v)[i] >= 32
    decreases v
  {
    match v
    case Arr(items) => ItemsAreOneLine(items);
    case Obj(members) => MembersAreOneLine(members);
    case Num(x) => NumberIsOneLine(x);
    case Str(s) => BodyIsOneLine(s);
    case _ =>
  }

  lemma {:induction false} ItemsAreOneLine(items: seq<Value>)
    requires forall i :: 0 <= i < |items| ==> Printable(items[i])
    ensures forall i :: 0 <= i < |StringifyItems(items)| ==> StringifyItems(items)[i] >= 32
    decreases items
  {
    if items != [] {
      StringifyIsOneLine(items[0]);
      ItemsAreOneLine(items[1..]);
    }
  }

  lemma {:induction false} MembersAreOneLine(members: seq<Entry<Value>>)
    requires forall i :: 0 <= i < |members| ==> Printable(members[i].value)
    ensures forall i :: 0 <= i < |StringifyMembers(members)| ==> StringifyMembers(members)[i] >= 32
    decreases members
  {
    if members != [] {
      BodyIsOneLine(members[0].key);
      StringifyIsOneLine(members[0].value);
      MembersAreOneLine(members[1..]);
    }
  }

  lemma {:induction false} BodyIsOneLine(s: Text)
    ensures forall i :: 0 <= i < |QuotedBody(s)| ==> QuotedBody(s)[i] >= 32
    decreases |s|
  {
    if s == [] {
    } else if IsLead(s[0]) && |s| > 1 && IsTrail(s[1]) {
      BodyIsOneLine(s[2..]);
    } else {
      BodyIsOneLine(s[1..]);
      assert forall i :: 0 <= i < |QuotedUnit(s[0])| ==> QuotedUnit(s[0])[i] >= 32;
    }
  }

  /** Digits, signs, the dot and the exponent mark: no `@` among them either. */
  predicate NumberUnit(u: Unit) { IsDigit(u) || u == MINUS || u == PLUS || u == DOT || u == EXPONENT }

  lemma {:induction false} DigitsAreNumberUnits(ds: seq<Digit>)
    ensures forall i :: 0 <= i < |ds| ==> IsDigit(DigitText(ds)[i])
  {
    if ds != [] {
      DigitsAreNumberUnits(ds[1..]);
    }
  }

  lemma NumberIsOneLine(x: Number)
    requires ShortestDecimal(x)
    ensures forall i :: 0 <= i < |NumberText(x)| ==> NumberUnit(NumberText(x)[i])
  {
    if x.Finite? {
      var d := SplitDecimal(x.digits, x.scale);
      DigitsAreNumberUnits(d.whole);
      DigitsAreNumberUnits(d.fraction);
      if d.exponent != 0 {
        DigitsAreNumberUnits(NatDigits(if d.exponent > 0 then d.exponent else -d.exponent));
      }
      assert forall i :: 0 <= i < |ExponentText(d.exponent)| ==> NumberUnit(ExponentText(d.exponent)[i]);
      assert forall i :: 0 <= i < |FractionText(d.fraction)| ==> NumberUnit(FractionText(d.fraction)[i]);
    }
  }

  /** The length from which a prefix of a drop carries the whole header and separator. */
  function HeaderLength(identity: Option<Identity>): nat
    requires identity.Some? ==> ValidIdentity(identity.value)
  {
    |HeaderLine(identity)| + 1 + |SEPARATOR|
  }

  lemma ReadHeaderLine(header: Value, rest: Text)
    requires Printable(header)
    ensures ReadStagedHeader(Stringify(header) + [NEWLINE] + rest) ==
            if OpensWithSeparator(rest) then HeaderOf(header) else NoHeader
  {
    var line := Stringify(header);
    var body := line + [NEWLINE] + rest;
    StringifyIsOneLine(header);
    IndexOfFirst(body, NEWLINE, |line|);
    assert body[|line| + 1..] == rest && body[..|line|] == line;
    ParseUndoes(header);
  }

  lemma {:induction false} IndexOfFirst(t: Text, u: Unit, i: nat)
    requires i < |t| && t[i] == u && forall j :: 0 <= j < i ==> t[j] != u
    ensures IndexOf(t, u) == i
    decreases i
  {
    if i > 0 {
      IndexOfFirst(t[1..], u, i - 1);
    }
  }

  lemma HeaderProperties(identity: Option<Identity>)
    requires identity.Some? ==> ValidIdentity(identity.value)
    ensures var members := HeaderValue(identity).members;
            && Property(members, SCHEMA_KEY) == Some(Str(SCHEMA))
            && Property(members, STAGED_KEY) == Some(Bool(identity.Some?))
            && (identity.Some? ==>
                  && Property(members, TASK_KEY) == Some(Str(identity.value.taskId))
                  && Property(members, EPOCH_KEY) == Some(Num(identity.value.epoch)))
    ensures HeaderOf(HeaderValue(identity)) ==
            if identity.Some? then Staged(identity.value.taskId, identity.value.epoch) else NoHeader
  {
    var ms := HeaderValue(identity).members;
    KeysDiffer();
    if identity.None? {
      PropertyAt(ms, 0);
      PropertyAt(ms, 1);
    } else {
      PropertyAt(ms, 0);
      PropertyAt(ms, 1);
      PropertyAt(ms, 2);
      PropertyAt(ms, 5);
    }
  }

  lemma {:induction false} PropertyAt(members: seq<Entry<Value>>, i: nat)
    requires i < |members|
    requires forall j :: i < j < |members| ==> members[j].key != members[i].key
    ensures Property(members, members[i].key) == Some(members[i].value)
    decreases |members|
  {
    if i < |members| - 1 {
      PropertyAt(members[..|members| - 1], i);
    }
  }

  lemma KeysDiffer()
    ensures |SCHEMA_KEY| == 6 && |STAGED_KEY| == 6 && |TASK_KEY| == 7 && |RUN_KEY| == 6 && |WORKER_KEY| == 6
    ensures |EPOCH_KEY| == 5 && |ATTEMPT_KEY| == 7 && |OUTBOX_KEY| == 6 && |DISPATCHED_KEY| == 13
    ensures SCHEMA_KEY[1] == 99 && STAGED_KEY[1] == 116 && RUN_KEY[1] == 117
    ensures WORKER_KEY[0] == 119 && OUTBOX_KEY[0] == 111 && TASK_KEY[0] == 116 && ATTEMPT_KEY[0] == 97
  {
  }

  lemma {:induction false} TrimEndShortens(t: Text)
    ensures |TrimEnd(t)| <= |t|
  {
    if t != [] && IsSpace(t[|t| - 1]) {
      TrimEndShortens(t[..|t| - 1]);
    }
  }

  /** What follows the header line opens with the separator once it is long enough, not before. */
  lemma SeparatorPrefix(more: Text, k: nat)
    requires k <= |SEPARATOR| + 1 + |more|
    ensures OpensWithSeparator((SEPARATOR + [NEWLINE] + more)[..k]) <==> k >= |SEPARATOR|
  {
    var rest := (SEPARATOR + [NEWLINE] + more)[..k];
    if k < |SEPARATOR| {
      TrimEndShortens(rest);
    } else if k == |SEPARATOR| {
      assert rest == SEPARATOR && SEPARATOR[|SEPARATOR| - 1] == 45;
    } else {
      assert rest[..|SEPARATOR| + 1] == SEPARATOR + [NEWLINE];
    }
  }

  lemma NoNewlineNoHeader(body: Text)
    requires NEWLINE !in body
    ensures ReadStagedHeader(body) == NoHeader
  {
  }

  lemma PrefixOfHeaderLine(header: Value, k: nat)
    requires Printable(header) && k <= |Stringify(header)|
    ensures ReadStagedHeader(Stringify(header)[..k]) == NoHeader
  {
    StringifyIsOneLine(header);
    NoNewlineNoHeader(Stringify(header)[..k]);
  }

  lemma PrefixOfDrop(header: Value, more: Text, k: nat)
    requires Printable(header) && k <= |Stringify(header)| + 1 + |SEPARATOR| + 1 + |more|
    ensures ReadStagedHeader((Stringify(header) + [NEWLINE] + SEPARATOR + [NEWLINE] + more)[..k]) ==
            if k >= |Stringify(header)| + 1 + |SEPARATOR| then HeaderOf(header) else NoHeader
  {
    var line := Stringify(header);
    var tail := SEPARATOR + [NEWLINE] + more;
    var drop := line + [NEWLINE] + SEPARATOR + [NEWLINE] + more;
    if k <= |line| {
      PrefixOfHeaderLine(header, k);
      assert drop[..k] == line[..k];
    } else {
      var rest := tail[..k - |line| - 1];
      assert drop[..k] == line + [NEWLINE] + rest;
      ReadHeaderLine(header, rest);
      SeparatorPrefix(more, k - |line| - 1);
    }
  }

  /** The first `k` units, or all of a shorter text. */
  function Cut(t: Text, k: nat): Text {
    if k <= |t| then t[..k] else t
  }

  /** Torn reads are harmless: a prefix of a drop shows the drop's own header or none, and shows it
      exactly from the end of the separator on. An idle drop shows none at any length. */
  lemma EveryPrefixReadsOwnHeader(identity: Option<Identity>, prompt: Text, k: nat)
    requires identity.Some? ==> ValidIdentity(identity.value)
    ensures ReadStagedHeader(Cut(RenderDrop(identity, prompt), k)) ==
            if identity.Some? && k >= HeaderLength(identity)
            then Staged(identity.value.taskId, identity.value.epoch) else NoHeader
  {
    var more := if identity.None? then TASK_POLICY_NONE + [NEWLINE] else prompt;
    var drop := RenderDrop(identity, prompt);
    assert drop[..|drop|] == drop;
    PrefixOfDrop(HeaderValue(identity), more, if k <= |drop| then k else |drop|);
    HeaderProperties(identity);
  }

  // -------------------------------------------------------------- the dedup key

  function FireKey(taskId: Text, epoch: Number): Text
    requires ShortestDecimal(epoch)
  {
    taskId + [AT_SIGN] + NumberText(epoch)
  }

  /** `task@epoch` names one allocation, whatever characters the task id holds. */
  lemma FireKeyIsInjective(a: Text, m: Number, b: Text, n: Number)
    requires ShortestDecimal(m) && ShortestDecimal(n)
    ensures FireKey(a, m) == FireKey(b, n) <==> a == b && m == n
  {
    if FireKey(a, m) == FireKey(b, n) {
      LastAtSign(a, NumberText(m), b, NumberText(n));
      ReadNumberUndoes(m, []);
      ReadNumberUndoes(n, []);
      assert NumberText(m) + [] == NumberText(n) + [];
    }
  }

  /** No number holds an `@`, so the last one in a key is the joint. */
  lemma LastAtSign(a: Text, x: Text, b: Text, y: Text)
    requires a + [AT_SIGN] + x == b + [AT_SIGN] + y
    requires exists m :: ShortestDecimal(m) && x == NumberText(m)
    requires exists n :: ShortestDecimal(n) && y == NumberText(n)
    ensures a == b && x == y
  {
    var key := a + [AT_SIGN] + x;
    if |a| < |b| {
      var m :| ShortestDecimal(m) && x == NumberText(m);
      assert key[|b|] == x[|b| - |a| - 1] && key[|b|] == AT_SIGN;
      NumberIsOneLine(m);
    } else if |b| < |a| {
      var n :| ShortestDecimal(n) && y == NumberText(n);
      assert key[|a|] == y[|a| - |b| - 1] && key[|a|] == AT_SIGN;
      NumberIsOneLine(n);
    } else {
      assert a == key[..|a|] == b;
      assert x == key[|a| + 1..] == y;
    }
  }
}
