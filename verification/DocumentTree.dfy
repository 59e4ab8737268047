/** A document as a tree of named parts, the walk that lists its strings with a path to each, and the
    search for known secrets among them (`walkStrings` and `findCredentialLeaks` in `src/contracts.ts`). */
module DocumentTree {
  import opened StringOps

  datatype Field = Field(key: string, node: Node)

  /** `Other` is a number, a boolean or null. */
  datatype Node = Other | Text(text: string) | Items(items: seq<Node>) | Record(fields: seq<Field>)

  datatype Found = Found(path: string, value: string)

  function ItemPath(path: string, i: nat): string { path + "[" + NatText(i) + "]" }

  function KeyPath(path: string, key: string): string { if path == "" then key else path + "." + key }

  /** `value` is a string leaf below `node`, and `path` is its spelling from `start`. */
  ghost predicate IsLeaf(node: Node, start: string, path: string, value: string)
    decreases node
  {
    match node
    case Other => false
    case Text(text) => path == start && value == text
    case Items(items) => exists i: nat | i < |items| :: IsLeaf(items[i], ItemPath(start, i), path, value)
    case Record(fields) =>
      exists i | 0 <= i < |fields| :: IsLeaf(fields[i].node, KeyPath(start, fields[i].key), path, value)
  }

  function Strings(node: Node, path: string): seq<Found>
    decreases node
  {
    match node
    case Other => []
    case Text(text) => [Found(path, text)]
    case Items(items) => ItemStrings(items, path, 0)
    case Record(fields) => FieldStrings(fields, path)
  }

  function ItemStrings(items: seq<Node>, path: string, i: nat): seq<Found>
    decreases items
  {
    if items == [] then [] else Strings(items[0], ItemPath(path, i)) + ItemStrings(items[1..], path, i + 1)
  }

  function FieldStrings(fields: seq<Field>, path: string): seq<Found>
    decreases fields
  {
    if fields == [] then []
    else Strings(fields[0].node, KeyPath(path, fields[0].key)) + FieldStrings(fields[1..], path)
  }

  /** The list the walk pushes onto. */
  class Accumulator {
    var found: seq<Found>

    constructor ()
      ensures found == []
    {
      found := [];
    }
  }

  method WalkStrings(node: Node, path: string, out: Accumulator)
    modifies out
    ensures out.found == old(out.found) + Strings(node, path)
    decreases node
  {
    hide ItemPath, KeyPath;
    match node
    case Other =>
    case Text(text) => out.found := out.found + [Found(path, text)];
    case Items(items) =>
      for i := 0 to |items|
        invariant out.found + ItemStrings(items[i..], path, i) == old(out.found) + ItemStrings(items, path, 0)
      {
        WalkStrings(items[i], ItemPath(path, i), out);
        assert items[i..] == [items[i]] + items[i + 1..];
      }
    case Record(fields) =>
      for i := 0 to |fields|
        invariant out.found + FieldStrings(fields[i..], path) == old(out.found) + FieldStrings(fields, path)
      {
        WalkStrings(fields[i].node, KeyPath(path, fields[i].key), out);
        assert fields[i..] == [fields[i]] + fields[i + 1..];
      }
  }

  // ------------------------------------------------------ the walk finds leaves

  /** The walk lists every string leaf of the tree under its own path, and nothing else. */
  lemma {:induction false} WalkFindsLeaves(node: Node, start: string, path: string, value: string)
    ensures Found(path, value) in Strings(node, start) <==> IsLeaf(node, start, path, value)
    decreases node
  {
    match node
    case Other =>
    case Text(_) =>
    case Items(items) => WalkFindsItems(items, start, 0, path, value);
    case Record(fields) => WalkFindsFields(fields, start, path, value);
  }

  lemma {:induction false} WalkFindsItems(items: seq<Node>, start: string, n: nat, path: string, value: string)
    ensures Found(path, value) in ItemStrings(items, start, n)
            <==> exists i: nat | i < |items| :: IsLeaf(items[i], ItemPath(start, n + i), path, value)
    decreases items
  {
    if items != [] {
      hide IsLeaf, Strings, ItemPath;
      var rest := items[1..];
      WalkFindsLeaves(items[0], ItemPath(start, n), path, value);
      WalkFindsItems(rest, start, n + 1, path, value);
      if i: nat :| i < |items| && IsLeaf(items[i], ItemPath(start, n + i), path, value) {
        if i > 0 {
          assert IsLeaf(rest[i - 1], ItemPath(start, n + 1 + (i - 1)), path, value);
        }
      }
      if i: nat :| i < |rest| && IsLeaf(rest[i], ItemPath(start, n + 1 + i), path, value) {
        assert IsLeaf(items[i + 1], ItemPath(start, n + (i + 1)), path, value);
      }
      assert IsLeaf(items[0], ItemPath(start, n), path, value)
        ==> IsLeaf(items[0], ItemPath(start, n + 0), path, value);
    }
  }

  lemma {:induction false} WalkFindsFields(fields: seq<Field>, start: string, path: string, value: string)
    ensures Found(path, value) in FieldStrings(fields, start)
            <==> exists i | 0 <= i < |fields| :: IsLeaf(fields[i].node, KeyPath(start, fields[i].key), path, value)
    decreases fields
  {
    if fields != [] {
      hide IsLeaf, Strings, KeyPath;
      var rest := fields[1..];
      WalkFindsLeaves(fields[0].node, KeyPath(start, fields[0].key), path, value);
      WalkFindsFields(rest, start, path, value);
      if i :| 0 <= i < |fields| && IsLeaf(fields[i].node, KeyPath(start, fields[i].key), path, value) {
        if i > 0 {
          assert IsLeaf(rest[i - 1].node, KeyPath(start, rest[i - 1].key), path, value);
        }
      }
      if i :| 0 <= i < |rest| && IsLeaf(rest[i].node, KeyPath(start, rest[i].key), path, value) {
        assert IsLeaf(fields[i + 1].node, KeyPath(start, fields[i + 1].key), path, value);
      }
    }
  }

  // ------------------------------------------------------------------ secrets

  function ShownPath(path: string): string { if path == "" then "<root>" else path }

  predicate IsNeedle(secret: string) { Trim(secret) != "" }

  /** A leaf shown as `shown` holds one of the secrets that are not blank. */
  ghost predicate LeaksAt(node: Node, secrets: seq<string>, shown: string) {
    exists path, value, secret ::
      && IsLeaf(node, "", path, value) && ShownPath(path) == shown
      && secret in secrets && IsNeedle(secret) && Contains(value, secret)
  }

  ghost predicate Leaks(node: Node, secrets: seq<string>) {
    exists path, value, secret ::
      IsLeaf(node, "", path, value) && secret in secrets && IsNeedle(secret) && Contains(value, secret)
  }

  method Needles(secrets: seq<string>) returns (needles: seq<string>)
    ensures forall secret :: secret in needles <==> secret in secrets && IsNeedle(secret)
  {
    needles := [];
    for i := 0 to |secrets|
      invariant forall secret :: secret in needles <==> secret in secrets[..i] && IsNeedle(secret)
    {
      if IsNeedle(secrets[i]) {
        needles := needles + [secrets[i]];
      }
    }
  }

  ghost predicate HoldsOneOf(value: string, needles: seq<string>) {
    exists k :: 0 <= k < |needles| && Contains(value, needles[k])
  }

  /** One of the listed strings holds a needle and is shown under this path. */
  ghost predicate HitBy(found: seq<Found>, needles: seq<string>, shown: string) {
    exists i :: 0 <= i < |found| && HoldsOneOf(found[i].value, needles) && ShownPath(found[i].path) == shown
  }

  method Hits(found: seq<Found>, needles: seq<string>) returns (hits: seq<string>)
    ensures forall shown :: shown in hits <==> HitBy(found, needles, shown)
    ensures forall i, j :: 0 <= i < j < |hits| ==> hits[i] != hits[j]
  {
    hide HitBy;
    hits := [];
    NoHits(needles);
    for i := 0 to |found|
      invariant forall shown :: shown in hits <==> HitBy(found[..i], needles, shown)
      invariant forall i, j :: 0 <= i < j < |hits| ==> hits[i] != hits[j]
    {
      ghost var before := hits;
      var path := ShownPath(found[i].path);
      for j := 0 to |needles|
        invariant forall shown ::
          shown in hits <==> shown in before || (shown == path && HoldsOneOf(found[i].value, needles[..j]))
        invariant forall i, j :: 0 <= i < j < |hits| ==> hits[i] != hits[j]
      {
        HoldsOneMore(found[i].value, needles, j);
        if Contains(found[i].value, needles[j]) && path !in hits {
          hits := hits + [path];
        }
      }
      assert needles[..|needles|] == needles;
      HitByOneMore(found, needles, i);
    }
    assert found[..|found|] == found;
  }

  lemma NoHits(needles: seq<string>)
    ensures forall shown :: !HitBy([], needles, shown)
  {
  }

  lemma HoldsOneMore(value: string, needles: seq<string>, j: nat)
    requires j < |needles|
    ensures HoldsOneOf(value, needles[..j + 1]) <==> HoldsOneOf(value, needles[..j]) || Contains(value, needles[j])
  {
    hide Contains;
    var less, more := needles[..j], needles[..j + 1];
    if HoldsOneOf(value, less) {
      var k :| 0 <= k < |less| && Contains(value, less[k]);
      assert more[k] == less[k];
    }
    assert more[j] == needles[j];
    if HoldsOneOf(value, more) && !Contains(value, needles[j]) {
      var k :| 0 <= k < |more| && Contains(value, more[k]);
      assert k < j ==> less[k] == more[k];
    }
  }

  lemma HitByOneMore(found: seq<Found>, needles: seq<string>, i: nat)
    requires i < |found|
    ensures forall shown ::
              HitBy(found[..i + 1], needles, shown)
              <==> HitBy(found[..i], needles, shown)
                   || (shown == ShownPath(found[i].path) && HoldsOneOf(found[i].value, needles))
  {
    hide HoldsOneOf, ShownPath;
    var less, more := found[..i], found[..i + 1];
    forall shown | HitBy(less, needles, shown) ensures HitBy(more, needles, shown) {
      var j :| 0 <= j < |less| && HoldsOneOf(less[j].value, needles) && ShownPath(less[j].path) == shown;
      assert more[j] == less[j];
    }
    forall shown | shown == ShownPath(found[i].path) && HoldsOneOf(found[i].value, needles)
      ensures HitBy(more, needles, shown)
    {
      assert more[i] == found[i];
    }
    forall shown | HitBy(more, needles, shown)
      ensures HitBy(less, needles, shown)
              || (shown == ShownPath(found[i].path) && HoldsOneOf(found[i].value, needles))
    {
      var j :| 0 <= j < |more| && HoldsOneOf(more[j].value, needles) && ShownPath(more[j].path) == shown;
      if j < i {
        assert less[j] == more[j];
      }
    }
  }

  /** Where known secrets appear: exactly the leaves that hold one, each path once. */
  method FindCredentialLeaks(node: Node, secrets: seq<string>) returns (hits: seq<string>)
    ensures forall shown :: shown in hits <==> LeaksAt(node, secrets, shown)
    ensures forall i, j :: 0 <= i < j < |hits| ==> hits[i] != hits[j]
    ensures hits == [] <==> !Leaks(node, secrets)
  {
    var needles := Needles(secrets);
    if needles == [] {
      NoNeedlesNoLeaks(node, secrets, needles);
      return [];
    }
    var out := new Accumulator();
    WalkStrings(node, "", out);
    assert out.found == Strings(node, "");
    hits := Hits(out.found, needles);
    HitsAreLeaks(node, secrets, needles, hits);
  }

  lemma NoNeedlesNoLeaks(node: Node, secrets: seq<string>, needles: seq<string>)
    requires needles == [] && forall secret :: secret in needles <==> secret in secrets && IsNeedle(secret)
    ensures !Leaks(node, secrets) && forall shown :: !LeaksAt(node, secrets, shown)
  {
    hide IsNeedle, IsLeaf, Contains;
  }

  lemma HitsAreLeaks(node: Node, secrets: seq<string>, needles: seq<string>, hits: seq<string>)
    requires forall secret :: secret in needles <==> secret in secrets && IsNeedle(secret)
    requires forall shown :: shown in hits <==> HitBy(Strings(node, ""), needles, shown)
    ensures forall shown :: shown in hits <==> LeaksAt(node, secrets, shown)
    ensures hits == [] <==> !Leaks(node, secrets)
  {
    hide IsNeedle, IsLeaf, Contains, Strings, ShownPath;
    var found := Strings(node, "");
    forall shown | HitBy(found, needles, shown) ensures LeaksAt(node, secrets, shown) {
      var i :| 0 <= i < |found| && HoldsOneOf(found[i].value, needles) && ShownPath(found[i].path) == shown;
      var k :| 0 <= k < |needles| && Contains(found[i].value, needles[k]);
      assert found[i] == Found(found[i].path, found[i].value) && needles[k] in needles;
      WalkFindsLeaves(node, "", found[i].path, found[i].value);
    }
    forall path, value, secret |
      IsLeaf(node, "", path, value) && secret in secrets && IsNeedle(secret) && Contains(value, secret)
      ensures HitBy(found, needles, ShownPath(path))
    {
      WalkFindsLeaves(node, "", path, value);
      var i :| 0 <= i < |found| && found[i] == Found(path, value);
      assert secret in needles;
      var k :| 0 <= k < |needles| && needles[k] == secret;
    }
    if hits != [] {
      assert hits[0] in hits;
    }
  }
}
