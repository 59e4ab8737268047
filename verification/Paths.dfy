/** POSIX path texts and the segments they name (`node:path`, as
    `docker/pi-extensions/report-tools.ts` uses it), and the lexical containment check. */
module Paths {

  /** The names between the root and a place, in order: no name is empty, `.` or `..`. */
  type Path = seq<string>

  predicate IsAbsolute(text: string) { text != "" && text[0] == '/' }

  /** `text.split(mark)`: never empty. */
  function Split(text: string, mark: char): (parts: seq<string>)
    ensures parts != []
    ensures forall i :: 0 <= i < |parts| ==> mark !in parts[i]
  {
    if text == "" then [""]
    else
      var rest := Split(text[1..], mark);
      if text[0] == mark then [""] + rest else [[text[0]] + rest[0]] + rest[1..]
  }

  function Join(parts: seq<string>, mark: char): string {
    if parts == [] then "" else if |parts| == 1 then parts[0] else parts[0] + [mark] + Join(parts[1..], mark)
  }

  function Enter(at: Path, part: string): Path {
    if part == "" || part == "." then at
    else if part == ".." then (if at == [] then at else at[..|at| - 1])
    else at + [part]
  }

  /** One segment at a time, from a place already normalised. */
  function Walk(at: Path, parts: seq<string>): Path
    decreases parts
  {
    if parts == [] then at else Walk(Enter(at, parts[0]), parts[1..])
  }

  /** The segments of an absolute path text. */
  function Segments(text: string): Path {
    Walk([], Split(text, '/'))
  }

  predicate Normal(p: Path) {
    forall i :: 0 <= i < |p| ==> p[i] != "" && p[i] != "." && p[i] != ".." && '/' !in p[i]
  }

  /** `resolve(base, text)` for an absolute `base`. */
  function Resolve(base: string, text: string): Path {
    if IsAbsolute(text) then Segments(text) else Segments(base + "/" + text)
  }

  /** The normalised text of a place. */
  function PathText(p: Path): string { "/" + Join(p, '/') }

  /** `join(dir, name)` for an absolute `dir`: normalised, with a final slash kept. */
  function JoinPath(dir: string, name: string): string {
    var text := if name == "" then dir else dir + "/" + name;
    var p := Segments(text);
    PathText(p) + if p != [] && text != "" && text[|text| - 1] == '/' then "/" else ""
  }

  function CommonPrefix(a: Path, b: Path): (n: nat)
    ensures n <= |a| && n <= |b| && a[..n] == b[..n]
    ensures n < |a| && n < |b| ==> a[n] != b[n]
  {
    if a == [] || b == [] || a[0] != b[0] then 0
    else
      var n := CommonPrefix(a[1..], b[1..]);
      assert a[..n + 1] == [a[0]] + a[1..][..n] && b[..n + 1] == [b[0]] + b[1..][..n];
      1 + n
  }

  /** `relative(from, to)`: one `..` for each segment to leave, then the segments to enter. */
  function RelativeParts(from: Path, to: Path): Path {
    var n := CommonPrefix(from, to);
    seq(|from| - n, _ => "..") + to[n..]
  }

  /** Is `child` at or beneath `root`, by the spelling of the relative path between them? */
  predicate Within(root: Path, child: Path) {
    var rel := Join(RelativeParts(root, child), '/');
    if rel == "" then true
    else if IsAbsolute(rel) then false
    else Split(rel, '/')[0] != ".."
  }

  lemma {:induction false} SplitConcat(a: string, b: string, mark: char)
    ensures Split(a + [mark] + b, mark) == Split(a, mark) + Split(b, mark)
  {
    var text := a + [mark] + b;
    if a == "" {
      assert text[1..] == b;
    } else {
      assert text[1..] == a[1..] + [mark] + b;
      SplitConcat(a[1..], b, mark);
    }
  }

  lemma {:induction false} SplitOne(a: string, mark: char)
    requires mark !in a
    ensures Split(a, mark) == [a]
  {
    if a != "" {
      SplitOne(a[1..], mark);
      assert [a[0]] + a[1..] == a;
    }
  }

  /** Splitting undoes joining, for parts that hold no mark. */
  lemma {:induction false} SplitUndoesJoin(parts: seq<string>, mark: char)
    requires parts != [] && forall i :: 0 <= i < |parts| ==> mark !in parts[i]
    ensures Split(Join(parts, mark), mark) == parts
  {
    SplitOne(parts[0], mark);
    if |parts| > 1 {
      SplitUndoesJoin(parts[1..], mark);
      SplitConcat(parts[0], Join(parts[1..], mark), mark);
    }
  }

  lemma {:induction false} SplitHoldsNo(text: string, mark: char, c: char)
    requires c !in text
    ensures forall i :: 0 <= i < |Split(text, mark)| ==> c !in Split(text, mark)[i]
  {
    if text != "" {
      SplitHoldsNo(text[1..], mark, c);
    }
  }

  lemma {:induction false} WalkConcat(at: Path, xs: seq<string>, ys: seq<string>)
    ensures Walk(at, xs + ys) == Walk(Walk(at, xs), ys)
    decreases xs
  {
    if xs == [] {
      assert xs + ys == ys;
    } else {
      assert (xs + ys)[1..] == xs[1..] + ys;
      WalkConcat(Enter(at, xs[0]), xs[1..], ys);
    }
  }

  lemma {:induction false} WalkIsNormal(at: Path, parts: seq<string>)
    requires Normal(at) && forall i :: 0 <= i < |parts| ==> '/' !in parts[i]
    ensures Normal(Walk(at, parts))
    decreases parts
  {
    if parts != [] {
      WalkIsNormal(Enter(at, parts[0]), parts[1..]);
    }
  }

  lemma SegmentsAreNormal(text: string)
    ensures Normal(Segments(text))
  {
    WalkIsNormal([], Split(text, '/'));
  }

  /** Walking below an absolute base starts where the base ends. */
  lemma SegmentsBelow(base: string, text: string)
    ensures Segments(base + "/" + text) == Walk(Segments(base), Split(text, '/'))
  {
    SplitConcat(base, text, '/');
    WalkConcat([], Split(base, '/'), Split(text, '/'));
  }

  // -------------------------------------------------------------- joined texts

  lemma {:induction false} WalkNormal(at: Path, p: Path)
    requires Normal(p)
    ensures Walk(at, p) == at + p
    decreases p
  {
    if p != [] {
      WalkNormal(at + [p[0]], p[1..]);
    }
  }

  /** A normalised text names its place, with or without a slash behind it. */
  lemma PathTextNames(p: Path)
    requires Normal(p)
    ensures Segments(PathText(p)) == p && Segments(PathText(p) + "/") == p
  {
    hide Walk;
    var joined := Join(p, '/');
    SplitConcat("", joined, '/');
    assert "" + ['/'] + joined == PathText(p);
    WalkNormal([], p);
    if p != [] {
      SplitUndoesJoin(p, '/');
    }
    StepsInPlace(p);
    WalkConcat([], [""], Split(joined, '/'));
    SplitConcat(PathText(p), "", '/');
    assert PathText(p) + ['/'] + "" == PathText(p) + "/";
    WalkConcat([], Split(PathText(p), '/'), [""]);
  }

  lemma StepsInPlace(at: Path)
    ensures Walk(at, [""]) == at && Split("", '/') == [""] && Walk([], [""]) == []
  {
    assert [""][1..] == [];
  }

  /** Joining names the place that resolving names. */
  lemma JoinPathNames(dir: string, name: string)
    requires name != ""
    ensures Segments(JoinPath(dir, name)) == Segments(dir + "/" + name)
  {
    SegmentsAreNormal(dir + "/" + name);
    hide Segments, PathText;
    var text := PathText(Segments(dir + "/" + name));
    PathTextNames(Segments(dir + "/" + name));
    assert JoinPath(dir, name) == text || JoinPath(dir, name) == text + "/";
  }

  /** What is put behind a joined text goes to its last segment. */
  lemma {:induction false} JoinEndsWith(p: Path, name: string, suffix: string)
    ensures Join(p + [name], '/') + suffix == Join(p + [name + suffix], '/')
  {
    if p == [] {
    } else {
      assert (p + [name])[1..] == p[1..] + [name] && (p + [name + suffix])[1..] == p[1..] + [name + suffix];
      JoinEndsWith(p[1..], name, suffix);
    }
  }

  /** The check on the spelling decides containment of the segments, both ways. */
  lemma WithinIsPrefix(root: Path, child: Path)
    requires Normal(root) && Normal(child)
    ensures Within(root, child) <==> root <= child
  {
    var n := CommonPrefix(root, child);
    var parts := RelativeParts(root, child);
    assert root <= child <==> n == |root|;
    if parts != [] {
      assert forall i :: 0 <= i < |parts| ==> parts[i] != "" && '/' !in parts[i];
      SplitUndoesJoin(parts, '/');
      assert Join(parts, '/')[0] == parts[0][0];
    }
  }
}
