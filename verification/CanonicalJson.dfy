/** Stable-key JSON (`src/contracts.ts`): the text a fact bundle is hashed as.

    `CanonicalJson` follows the source. `SameValue` says independently of any order or text when
    two values are the same, and the main theorem is that the texts agree exactly then. */
module CanonicalJson {
  import opened Json

  /** Object keys are distinct, as they are in any JavaScript object. */
  ghost predicate WellFormed(v: Value)
    decreases v
  {
    match v
    case Num(x) => ShortestDecimal(x)
    case Arr(items) => forall i :: 0 <= i < |items| ==> WellFormed(items[i])
    case Obj(members) =>
      && DistinctKeys(members)
      && forall i :: 0 <= i < |members| ==> WellFormed(members[i].value)
    case _ => true
  }

  ghost predicate DistinctKeys<T>(es: seq<Entry<T>>) {
    forall i, j :: 0 <= i < j < |es| ==> es[i].key != es[j].key
  }

  // ---------------------------------------------------------- sorting by key

  /** The order of `Array.prototype.sort`: code unit by code unit, a proper prefix first. */
  predicate Before(a: Text, b: Text)
    decreases a
  {
    if b == [] then false
    else if a == [] then true
    else a[0] < b[0] || (a[0] == b[0] && Before(a[1..], b[1..]))
  }

  lemma {:induction false} BeforeIsStrictOrder(a: Text, b: Text, c: Text)
    ensures !Before(a, a)
    ensures Before(a, b) ==> !Before(b, a)
    ensures Before(a, b) && Before(b, c) ==> Before(a, c)
    ensures Before(a, b) || Before(b, a) || a == b
  {
    if a != [] && b != [] {
      BeforeIsStrictOrder(a[1..], b[1..], if c == [] then [] else c[1..]);
      assert a == [a[0]] + a[1..] && b == [b[0]] + b[1..];
    } else if a != [] {
      BeforeIsStrictOrder(a[1..], a[1..], a[1..]);
    }
  }

  function Insert<T>(e: Entry<T>, es: seq<Entry<T>>): (r: seq<Entry<T>>)
    ensures |r| == |es| + 1
  {
    if es == [] || !Before(es[0].key, e.key) then [e] + es else [es[0]] + Insert(e, es[1..])
  }

  function Sort<T>(es: seq<Entry<T>>): (r: seq<Entry<T>>)
    ensures |r| == |es|
  {
    if es == [] then [] else Insert(es[0], Sort(es[1..]))
  }

  ghost predicate Ascending<T>(es: seq<Entry<T>>) {
    forall i, j :: 0 <= i < j < |es| ==> Before(es[i].key, es[j].key)
  }

  lemma {:induction false} InsertKeeps<T>(e: Entry<T>, es: seq<Entry<T>>)
    ensures multiset(Insert(e, es)) == multiset(es) + multiset{e}
  {
    if es == [] || !Before(es[0].key, e.key) {
    } else {
      InsertKeeps(e, es[1..]);
      assert es == [es[0]] + es[1..];
    }
  }

  lemma {:induction false} InsertAscends<T>(e: Entry<T>, es: seq<Entry<T>>)
    requires Ascending(es) && forall i :: 0 <= i < |es| ==> es[i].key != e.key
    ensures Ascending(Insert(e, es))
  {
    if es == [] {
    } else if !Before(es[0].key, e.key) {
      forall i | 0 <= i < |es| ensures Before(e.key, es[i].key) {
        BeforeIsStrictOrder(e.key, es[0].key, es[i].key);
      }
    } else {
      InsertAscends(e, es[1..]);
      InsertKeeps(e, es[1..]);
      var rest := Insert(e, es[1..]);
      forall i | 0 <= i < |rest| ensures Before(es[0].key, rest[i].key) {
        assert rest[i] in multiset(rest);
        assert rest[i] == e || rest[i] in es[1..];
      }
    }
  }

  lemma {:induction false} SortKeeps<T>(es: seq<Entry<T>>)
    ensures multiset(Sort(es)) == multiset(es)
  {
    if es != [] {
      SortKeeps(es[1..]);
      InsertKeeps(es[0], Sort(es[1..]));
      assert es == [es[0]] + es[1..];
    }
  }

  lemma {:induction false} SortAscends<T>(es: seq<Entry<T>>)
    requires DistinctKeys(es)
    ensures Ascending(Sort(es))
  {
    if es != [] {
      SortAscends(es[1..]);
      SortKeeps(es[1..]);
      forall i | 0 <= i < |Sort(es[1..])| ensures Sort(es[1..])[i].key != es[0].key {
        assert Sort(es[1..])[i] in multiset(es[1..]);
      }
      InsertAscends(es[0], Sort(es[1..]));
    }
  }

  /** Sorting looks at keys only, so it commutes with any change of the values. */
  function MapValues<A, B>(f: A -> B, es: seq<Entry<A>>): (r: seq<Entry<B>>)
    ensures |r| == |es|
    ensures forall i :: 0 <= i < |es| ==> r[i] == Entry(es[i].key, f(es[i].value))
  {
    seq(|es|, i requires 0 <= i < |es| => Entry(es[i].key, f(es[i].value)))
  }

  lemma {:induction false} InsertCommutes<A, B>(f: A -> B, e: Entry<A>, es: seq<Entry<A>>)
    ensures MapValues(f, Insert(e, es)) == Insert(Entry(e.key, f(e.value)), MapValues(f, es))
  {
    if es == [] || !Before(es[0].key, e.key) {
    } else {
      InsertCommutes(f, e, es[1..]);
      assert MapValues(f, es)[1..] == MapValues(f, es[1..]);
    }
  }

  lemma {:induction false} SortCommutes<A, B>(f: A -> B, es: seq<Entry<A>>)
    ensures MapValues(f, Sort(es)) == Sort(MapValues(f, es))
  {
    if es != [] {
      SortCommutes(f, es[1..]);
      assert MapValues(f, es)[1..] == MapValues(f, es[1..]);
      InsertCommutes(f, es[0], Sort(es[1..]));
    }
  }

  // --------------------------------------------------------------- the printer

  function CanonicalJson(v: Value): Text
    requires WellFormed(v)
    decreases v
  {
    match v
    case Arr(items) => [OPEN_BRACKET] + JoinItems(RenderItems(items)) + [CLOSE_BRACKET]
    case Obj(members) => [OPEN_BRACE] + JoinMembers(Sort(RenderMembers(members))) + [CLOSE_BRACE]
    case Unprintable => NULL_TEXT
    case _ => Stringify(v)
  }

  function RenderItems(items: seq<Value>): (r: seq<Text>)
    requires forall i :: 0 <= i < |items| ==> WellFormed(items[i])
    ensures |r| == |items|
    ensures forall i :: 0 <= i < |items| ==> r[i] == CanonicalJson(items[i])
    decreases items
  {
    if items == [] then [] else [CanonicalJson(items[0])] + RenderItems(items[1..])
  }

  function RenderMembers(members: seq<Entry<Value>>): (r: seq<Entry<Text>>)
    requires forall i :: 0 <= i < |members| ==> WellFormed(members[i].value)
    ensures |r| == |members|
    ensures forall i :: 0 <= i < |members| ==>
              r[i] == Entry(members[i].key, CanonicalJson(members[i].value))
    decreases members
  {
    if members == [] then []
    else [Entry(members[0].key, CanonicalJson(members[0].value))] + RenderMembers(members[1..])
  }

  function JoinItems(texts: seq<Text>): Text {
    if texts == [] then []
    else if |texts| == 1 then texts[0]
    else texts[0] + [COMMA] + JoinItems(texts[1..])
  }

  function JoinMembers(es: seq<Entry<Text>>): Text {
    if es == [] then []
    else
      var first := MemberText(es[0].key, es[0].value);
      if |es| == 1 then first else first + [COMMA] + JoinMembers(es[1..])
  }

  // ------------------------------------------------------------ canonical values

  /** The value with every object's keys sorted, and `null` for what has no text. */
  ghost function Canon(v: Value): Value
    decreases v
  {
    match v
    case Arr(items) => Arr(CanonItems(items))
    case Obj(members) => Obj(Sort(CanonMembers(members)))
    case Unprintable => Null
    case _ => v
  }

  ghost function CanonItems(items: seq<Value>): (r: seq<Value>)
    ensures |r| == |items|
    ensures forall i :: 0 <= i < |items| ==> r[i] == Canon(items[i])
    decreases items
  {
    if items == [] then [] else [Canon(items[0])] + CanonItems(items[1..])
  }

  ghost function CanonMembers(members: seq<Entry<Value>>): (r: seq<Entry<Value>>)
    ensures |r| == |members|
    ensures forall i :: 0 <= i < |members| ==> r[i] == Entry(members[i].key, Canon(members[i].value))
    decreases members
  {
    if members == [] then []
    else [Entry(members[0].key, Canon(members[0].value))] + CanonMembers(members[1..])
  }

  ghost function PrintableText(v: Value): Text {
    if Printable(v) then Stringify(v) else []
  }

  lemma {:induction false} JoinItemsPrints(texts: seq<Text>, items: seq<Value>)
    requires |texts| == |items|
    requires forall i :: 0 <= i < |items| ==> Printable(items[i]) && texts[i] == Stringify(items[i])
    ensures JoinItems(texts) == StringifyItems(items)
  {
    if |items| > 1 {
      JoinItemsPrints(texts[1..], items[1..]);
    }
  }

  lemma {:induction false} JoinMembersPrints(es: seq<Entry<Text>>, members: seq<Entry<Value>>)
    requires |es| == |members|
    requires forall i :: 0 <= i < |members| ==>
               Printable(members[i].value) && es[i] == Entry(members[i].key, Stringify(members[i].value))
    ensures JoinMembers(es) == StringifyMembers(members)
  {
    if |members| > 1 {
      JoinMembersPrints(es[1..], members[1..]);
    }
  }

  /** The canonical text is the ordinary text of the canonical value. */
  lemma {:induction false} CanonicalIsStringify(v: Value)
    requires WellFormed(v)
    ensures Printable(Canon(v)) && CanonicalJson(v) == Stringify(Canon(v))
    decreases v
  {
    if v.Arr? {
      forall i | 0 <= i < |v.items|
        ensures Printable(Canon(v.items[i])) && CanonicalJson(v.items[i]) == Stringify(Canon(v.items[i]))
      {
        CanonicalIsStringify(v.items[i]);
      }
      JoinItemsPrints(RenderItems(v.items), CanonItems(v.items));
    } else if v.Obj? {
      forall i | 0 <= i < |v.members|
        ensures Printable(Canon(v.members[i].value))
        ensures CanonicalJson(v.members[i].value) == Stringify(Canon(v.members[i].value))
      {
        CanonicalIsStringify(v.members[i].value);
      }
      CanonicalObjectIsStringify(v.members);
    }
  }

  lemma CanonicalObjectIsStringify(members: seq<Entry<Value>>)
    requires forall i :: 0 <= i < |members| ==>
               && WellFormed(members[i].value) && Printable(Canon(members[i].value))
               && CanonicalJson(members[i].value) == Stringify(Canon(members[i].value))
    ensures forall i :: 0 <= i < |members| ==> Printable(Sort(CanonMembers(members))[i].value)
    ensures JoinMembers(Sort(RenderMembers(members))) == StringifyMembers(Sort(CanonMembers(members)))
  {
    var canon := CanonMembers(members);
    RenderedMembers(members);
    SortCommutes(PrintableText, canon);
    SortedStayPrintable(canon);
    JoinMembersPrints(Sort(RenderMembers(members)), Sort(canon));
  }

  lemma RenderedMembers(members: seq<Entry<Value>>)
    requires forall i :: 0 <= i < |members| ==>
               && WellFormed(members[i].value) && Printable(Canon(members[i].value))
               && CanonicalJson(members[i].value) == Stringify(Canon(members[i].value))
    ensures RenderMembers(members) == MapValues(PrintableText, CanonMembers(members))
  {
  }

  lemma SortedStayPrintable(es: seq<Entry<Value>>)
    requires forall i :: 0 <= i < |es| ==> Printable(es[i].value)
    ensures forall i :: 0 <= i < |es| ==> Printable(Sort(es)[i].value)
  {
    SortKeeps(es);
    forall i | 0 <= i < |es| ensures Printable(Sort(es)[i].value) {
      assert Sort(es)[i] in multiset(es);
    }
  }

  /** Equal texts come from equal canonical values: the reader recovers the value from the text. */
  lemma CanonicalJsonReads(v: Value, tail: Text)
    requires WellFormed(v) && Delimited(tail)
    ensures ReadValue(CanonicalJson(v) + tail) == Read(Canon(v), tail)
  {
    CanonicalIsStringify(v);
    ReadValueUndoes(Canon(v), tail);
  }

  // ------------------------------------------------------- sameness without order

  /** Deep equality in which the order of an object's properties does not matter. */
  ghost predicate SameValue(a: Value, b: Value)
    decreases a
  {
    match a
    case Arr(items) =>
      && b.Arr? && |items| == |b.items|
      && forall i :: 0 <= i < |items| ==> SameValue(items[i], b.items[i])
    case Obj(members) => b.Obj? && AllMembersIn(members, b.members) && |members| == |b.members|
    case Null => b.Null? || b.Unprintable?
    case Unprintable => b.Null? || b.Unprintable?
    case _ => a == b
  }

  ghost predicate AllMembersIn(ms: seq<Entry<Value>>, members: seq<Entry<Value>>)
    decreases ms
  {
    forall i :: 0 <= i < |ms| ==> SameMemberIn(ms[i], members)
  }

  /** Some member has this key and the same value. */
  ghost predicate SameMemberIn(m: Entry<Value>, members: seq<Entry<Value>>)
    decreases m
  {
    exists j :: 0 <= j < |members| && m.key == members[j].key && SameValue(m.value, members[j].value)
  }

  /** Strictly ascending sequences with the same elements are the same sequence. */
  lemma {:induction false} AscendingUnique<T>(xs: seq<Entry<T>>, ys: seq<Entry<T>>)
    requires Ascending(xs) && Ascending(ys) && |xs| == |ys|
    requires forall i :: 0 <= i < |xs| ==> xs[i] in ys
    ensures xs == ys
    decreases |xs|
  {
    hide Before;
    if xs != [] {
      var last := |xs| - 1;
      if xs[last] != ys[last] {
        // Then all of xs would sit inside a shorter ascending sequence.
        forall i | 0 <= i < |xs| ensures xs[i] in ys[..last] {
          var j :| 0 <= j < |ys| && ys[j] == xs[i];
          if j == last && i < last {
            var k :| 0 <= k < |ys| && ys[k] == xs[last];
            BeforeIsStrictOrder(xs[i].key, xs[last].key, xs[i].key);
          }
        }
        TooManyAscending(xs, ys[..last]);
      } else {
        forall i | 0 <= i < last ensures xs[..last][i] in ys[..last] {
          var j :| 0 <= j < |ys| && ys[j] == xs[i];
          BeforeIsStrictOrder(xs[i].key, xs[last].key, xs[i].key);
        }
        AscendingUnique(xs[..last], ys[..last]);
        assert xs == xs[..last] + [xs[last]] && ys == ys[..last] + [ys[last]];
      }
    }
  }

  lemma {:induction false} TooManyAscending<T>(xs: seq<Entry<T>>, ys: seq<Entry<T>>)
    requires Ascending(xs) && |xs| > |ys|
    requires forall i :: 0 <= i < |xs| ==> xs[i] in ys
    ensures false
    decreases |xs|
  {
    hide Before;
    var last := |xs| - 1;
    var at :| 0 <= at < |ys| && ys[at] == xs[last];
    var fewer := ys[..at] + ys[at + 1..];
    forall i | 0 <= i < last ensures xs[..last][i] in fewer {
      BeforeIsStrictOrder(xs[i].key, xs[last].key, xs[i].key);
      var j :| 0 <= j < |ys| && ys[j] == xs[i];
      assert j != at;
      assert ys[j] == if j < at then fewer[j] else fewer[j - 1];
    }
    if last > 0 {
      TooManyAscending(xs[..last], fewer);
    }
  }

  /** Two objects have the same canonical form exactly when each property of one is, canonically,
      a property of the other. */
  lemma SameMembers(xs: seq<Entry<Value>>, ys: seq<Entry<Value>>)
    requires DistinctKeys(xs) && DistinctKeys(ys)
    ensures Sort(xs) == Sort(ys) <==> |xs| == |ys| && forall i :: 0 <= i < |xs| ==> xs[i] in ys
  {
    SortKeeps(xs);
    SortKeeps(ys);
    if Sort(xs) == Sort(ys) {
      forall i | 0 <= i < |xs| ensures xs[i] in ys {
        assert xs[i] in multiset(xs);
      }
    }
    if |xs| == |ys| && forall i :: 0 <= i < |xs| ==> xs[i] in ys {
      SortAscends(xs);
      SortAscends(ys);
      forall i | 0 <= i < |xs| ensures Sort(xs)[i] in Sort(ys) {
        assert Sort(xs)[i] in multiset(xs);
        assert Sort(xs)[i] in multiset(ys);
      }
      AscendingUnique(Sort(xs), Sort(ys));
    }
  }

  lemma {:induction false} CanonDecidesSameness(a: Value, b: Value)
    requires WellFormed(a) && WellFormed(b)
    ensures Canon(a) == Canon(b) <==> SameValue(a, b)
    decreases a
  {
    if a.Arr? && b.Arr? && |a.items| == |b.items| {
      forall i | 0 <= i < |a.items|
        ensures Canon(a.items[i]) == Canon(b.items[i]) <==> SameValue(a.items[i], b.items[i])
      {
        CanonDecidesSameness(a.items[i], b.items[i]);
      }
      SameItems(a.items, b.items);
    } else if a.Obj? && b.Obj? {
      forall i, j | 0 <= i < |a.members| && 0 <= j < |b.members|
        ensures Canon(a.members[i].value) == Canon(b.members[j].value)
                <==> SameValue(a.members[i].value, b.members[j].value)
      {
        CanonDecidesSameness(a.members[i].value, b.members[j].value);
      }
      SameMembers(CanonMembers(a.members), CanonMembers(b.members));
      SameObject(a.members, b.members);
    }
  }

  lemma SameItems(xs: seq<Value>, ys: seq<Value>)
    requires |xs| == |ys|
    ensures CanonItems(xs) == CanonItems(ys)
            <==> forall i :: 0 <= i < |xs| ==> Canon(xs[i]) == Canon(ys[i])
  {
    if CanonItems(xs) == CanonItems(ys) {
      forall i | 0 <= i < |xs| ensures Canon(xs[i]) == Canon(ys[i]) {
        assert CanonItems(xs)[i] == CanonItems(ys)[i];
      }
    }
  }

  lemma SameObject(ms: seq<Entry<Value>>, members: seq<Entry<Value>>)
    requires forall i, j :: 0 <= i < |ms| && 0 <= j < |members| ==>
               (Canon(ms[i].value) == Canon(members[j].value) <==> SameValue(ms[i].value, members[j].value))
    ensures AllMembersIn(ms, members)
            <==> forall i :: 0 <= i < |ms| ==> CanonMembers(ms)[i] in CanonMembers(members)
  {
    forall i | 0 <= i < |ms|
      ensures CanonMembers(ms)[i] in CanonMembers(members) <==> SameMemberIn(ms[i], members)
    {
      SameMemberIsMember(ms[i], members);
    }
  }

  lemma SameMemberIsMember(m: Entry<Value>, members: seq<Entry<Value>>)
    requires forall j :: 0 <= j < |members| ==>
               (Canon(m.value) == Canon(members[j].value) <==> SameValue(m.value, members[j].value))
    ensures Entry(m.key, Canon(m.value)) in CanonMembers(members) <==> SameMemberIn(m, members)
  {
    var ys := CanonMembers(members);
    if Entry(m.key, Canon(m.value)) in ys {
      var j :| 0 <= j < |ys| && ys[j] == Entry(m.key, Canon(m.value));
      assert m.key == members[j].key && SameValue(m.value, members[j].value);
    }
    if SameMemberIn(m, members) {
      var j :| 0 <= j < |members| && m.key == members[j].key && SameValue(m.value, members[j].value);
      assert ys[j] == Entry(m.key, Canon(m.value));
    }
  }

  /** The replay key is injective up to key order. */
  lemma SameTextIffSameValue(a: Value, b: Value)
    requires WellFormed(a) && WellFormed(b)
    ensures CanonicalJson(a) == CanonicalJson(b) <==> SameValue(a, b)
  {
    CanonicalJsonReads(a, []);
    CanonicalJsonReads(b, []);
    CanonicalIsStringify(a);
    CanonicalIsStringify(b);
    CanonDecidesSameness(a, b);
    assert CanonicalJson(a) + [] == CanonicalJson(a) && CanonicalJson(b) + [] == CanonicalJson(b);
  }
}
