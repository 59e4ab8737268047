/** JSON values and texts: what `JSON.stringify` prints, and a reader that undoes it.

    A JavaScript string is a sequence of UTF-16 code units, so a text is one here as well: that is
    what key sorting compares and what a lone surrogate is a part of. A finite double is
    represented by the shortest decimal that reads back as it, which is what
    `Number::toString` prints (ECMA-262, section 6.1.6.1.20). */
module Json {

  type Unit = u: int | 0 <= u < 0x10000

  type Text = seq<Unit>

  type Digit = d: int | 0 <= d < 10

  /** Zero, or `0.d1 d2 ... dk` times ten to the `scale`. Both zeros print alike. */
  datatype Number = Zero | Finite(negative: bool, digits: seq<Digit>, scale: int)

  /** One property of an object. */
  datatype Entry<T> = Entry(key: Text, value: T)

  /** `Unprintable` stands for what `JSON.stringify` has no text for: `undefined`, a function, a
      symbol, NaN and the infinities. */
  datatype Value =
    | Null
    | Bool(b: bool)
    | Num(x: Number)
    | Str(s: Text)
    | Arr(items: seq<Value>)
    | Obj(members: seq<Entry<Value>>)
    | Unprintable

  const QUOTE: Unit := 34
  const PLUS: Unit := 43
  const COMMA: Unit := 44
  const MINUS: Unit := 45
  const DOT: Unit := 46
  const DIGIT0: Unit := 48
  const COLON: Unit := 58
  const OPEN_BRACKET: Unit := 91
  const BACKSLASH: Unit := 92
  const CLOSE_BRACKET: Unit := 93
  const EXPONENT: Unit := 101
  const OPEN_BRACE: Unit := 123
  const CLOSE_BRACE: Unit := 125

  const NULL_TEXT: Text := [110, 117, 108, 108]
  const TRUE_TEXT: Text := [116, 114, 117, 101]
  const FALSE_TEXT: Text := [102, 97, 108, 115, 101]

  // ------------------------------------------------------------------ numbers

  /** A double has one shortest decimal: no zero digit at either end. */
  predicate ShortestDecimal(x: Number) {
    x.Finite? ==> x.digits != [] && x.digits[0] != 0 && x.digits[|x.digits| - 1] != 0
  }

  function DigitText(ds: seq<Digit>): (t: Text)
    ensures |t| == |ds|
  {
    if ds == [] then [] else [DIGIT0 + ds[0]] + DigitText(ds[1..])
  }

  function Zeros(n: nat): (ds: seq<Digit>)
    ensures |ds| == n
    ensures forall i :: 0 <= i < n ==> ds[i] == 0
  {
    seq(n, _ => 0)
  }

  function NatDigits(n: nat): (ds: seq<Digit>)
    ensures ds != []
  {
    if n < 10 then [n] else NatDigits(n / 10) + [n % 10]
  }

  function NatValue(ds: seq<Digit>): nat {
    if ds == [] then 0 else 10 * NatValue(ds[..|ds| - 1]) + ds[|ds| - 1]
  }

  /** The integer part, the fraction and the exponent `Number::toString` splits a number into. */
  datatype Decimal = Decimal(whole: seq<Digit>, fraction: seq<Digit>, exponent: int)

  function SplitDecimal(digits: seq<Digit>, scale: int): (d: Decimal)
    requires digits != []
    ensures d.whole != []
  {
    if |digits| <= scale <= 21 then
      Decimal(digits + Zeros(scale - |digits|), [], 0)
    else if 0 < scale <= 21 then
      Decimal(digits[..scale], digits[scale..], 0)
    else if -6 < scale <= 0 then
      Decimal([0], Zeros(-scale) + digits, 0)
    else
      Decimal(digits[..1], digits[1..], scale - 1)
  }

  function FractionText(fraction: seq<Digit>): Text {
    if fraction == [] then [] else [DOT] + DigitText(fraction)
  }

  function ExponentText(e: int): Text {
    if e == 0 then []
    else if e > 0 then [EXPONENT, PLUS] + DigitText(NatDigits(e))
    else [EXPONENT, MINUS] + DigitText(NatDigits(-e))
  }

  function DecimalText(d: Decimal): Text {
    DigitText(d.whole) + FractionText(d.fraction) + ExponentText(d.exponent)
  }

  function NumberText(x: Number): Text
    requires ShortestDecimal(x)
  {
    match x
    case Zero => [DIGIT0]
    case Finite(negative, digits, scale) =>
      (if negative then [MINUS] else []) + DecimalText(SplitDecimal(digits, scale))
  }

  // ------------------------------------------------------------------ strings

  predicate IsLead(u: Unit) { 0xD800 <= u < 0xDC00 }

  predicate IsTrail(u: Unit) { 0xDC00 <= u < 0xE000 }

  function HexText(h: int): Unit
    requires 0 <= h < 16
  {
    if h < 10 then DIGIT0 + h else 87 + h
  }

  datatype Hex = Hex(a: int, b: int, c: int, d: int)

  function HexOf(u: Unit): (h: Hex)
    ensures 0 <= h.a < 16 && 0 <= h.b < 16 && 0 <= h.c < 16 && 0 <= h.d < 16
    ensures 4096 * h.a + 256 * h.b + 16 * h.c + h.d == u
  {
    var low: int := u - 4096 * (u / 4096);
    var lower := low - 256 * (low / 256);
    Hex(u / 4096, low / 256, lower / 16, lower - 16 * (lower / 16))
  }

  function UnicodeEscape(u: Unit): Text {
    var h := HexOf(u);
    [BACKSLASH, 117, HexText(h.a), HexText(h.b), HexText(h.c), HexText(h.d)]
  }

  function QuotedUnit(u: Unit): Text {
    if u == 8 then [BACKSLASH, 98]
    else if u == 9 then [BACKSLASH, 116]
    else if u == 10 then [BACKSLASH, 110]
    else if u == 12 then [BACKSLASH, 102]
    else if u == 13 then [BACKSLASH, 114]
    else if u == QUOTE || u == BACKSLASH then [BACKSLASH, u]
    else if u < 32 || IsLead(u) || IsTrail(u) then UnicodeEscape(u)
    else [u]
  }

  /** A surrogate pair is copied; a surrogate on its own is escaped. */
  function QuotedBody(s: Text): Text {
    if s == [] then []
    else if IsLead(s[0]) && |s| > 1 && IsTrail(s[1]) then [s[0], s[1]] + QuotedBody(s[2..])
    else QuotedUnit(s[0]) + QuotedBody(s[1..])
  }

  function StringText(s: Text): Text {
    [QUOTE] + QuotedBody(s) + [QUOTE]
  }

  // ------------------------------------------------------------------- values

  /** What `JSON.stringify` prints without dropping or replacing any part of. */
  ghost predicate Printable(v: Value)
    decreases v
  {
    match v
    case Null => true
    case Bool(_) => true
    case Num(x) => ShortestDecimal(x)
    case Str(_) => true
    case Arr(items) => forall i :: 0 <= i < |items| ==> Printable(items[i])
    case Obj(members) => forall i :: 0 <= i < |members| ==> Printable(members[i].value)
    case Unprintable => false
  }

  function Stringify(v: Value): Text
    requires Printable(v)
    decreases v
  {
    match v
    case Null => NULL_TEXT
    case Bool(b) => if b then TRUE_TEXT else FALSE_TEXT
    case Num(x) => NumberText(x)
    case Str(s) => StringText(s)
    case Arr(items) => [OPEN_BRACKET] + StringifyItems(items) + [CLOSE_BRACKET]
    case Obj(members) => [OPEN_BRACE] + StringifyMembers(members) + [CLOSE_BRACE]
  }

  function StringifyItems(items: seq<Value>): Text
    requires forall i :: 0 <= i < |items| ==> Printable(items[i])
    decreases items
  {
    if items == [] then []
    else if |items| == 1 then Stringify(items[0])
    else Stringify(items[0]) + [COMMA] + StringifyItems(items[1..])
  }

  function MemberText(key: Text, value: Text): Text {
    StringText(key) + [COLON] + value
  }

  function StringifyMembers(members: seq<Entry<Value>>): Text
    requires forall i :: 0 <= i < |members| ==> Printable(members[i].value)
    decreases members
  {
    if members == [] then []
    else
      var first := MemberText(members[0].key, Stringify(members[0].value));
      if |members| == 1 then first else first + [COMMA] + StringifyMembers(members[1..])
  }

  // ------------------------------------------------------------------- reader

  /** What a reader made of the front of a text, and the text it left. */
  datatype Parsed<T> = Unread | Read(value: T, rest: Text)

  predicate IsDigit(u: Unit) { DIGIT0 <= u < DIGIT0 + 10 }

  /** The longest run of digits at the front. */
  function ReadDigits(t: Text): (r: Parsed<seq<Digit>>)
    ensures r.Read? && |r.rest| + |r.value| == |t|
  {
    if t == [] || !IsDigit(t[0]) then Read([], t)
    else
      var r := ReadDigits(t[1..]);
      Read([t[0] - DIGIT0] + r.value, r.rest)
  }

  function LeadingZeros(ds: seq<Digit>): (n: nat)
    ensures n <= |ds|
    ensures n < |ds| ==> ds[n] != 0
  {
    if ds == [] || ds[0] != 0 then 0 else 1 + LeadingZeros(ds[1..])
  }

  function DropTrailingZeros(ds: seq<Digit>): (r: seq<Digit>)
    ensures r <= ds
    ensures r != [] ==> r[|r| - 1] != 0
  {
    if ds == [] || ds[|ds| - 1] != 0 then ds else DropTrailingZeros(ds[..|ds| - 1])
  }

  /** The number a decimal denotes, brought to its shortest digits. */
  function DecimalNumber(negative: bool, d: Decimal): (x: Number)
    ensures ShortestDecimal(x)
  {
    var all := d.whole + d.fraction;
    var zeros := LeadingZeros(all);
    var digits := DropTrailingZeros(all[zeros..]);
    if digits == [] then Zero else Finite(negative, digits, |d.whole| - zeros + d.exponent)
  }

  function ReadExponent(t: Text): (r: Parsed<int>)
    ensures r.Read? ==> |r.rest| <= |t|
  {
    if t == [] || t[0] != EXPONENT then Read(0, t)
    else if |t| < 2 || (t[1] != PLUS && t[1] != MINUS) then Unread
    else
      var r := ReadDigits(t[2..]);
      if r.value == [] then Unread
      else
        var magnitude: int := NatValue(r.value);
        Read(if t[1] == PLUS then magnitude else -magnitude, r.rest)
  }

  function ReadUnsigned(t: Text): (r: Parsed<Decimal>)
    ensures r.Read? ==> |r.rest| < |t|
  {
    var whole := ReadDigits(t);
    var fraction := if whole.rest != [] && whole.rest[0] == DOT then ReadDigits(whole.rest[1..])
                    else Read([], whole.rest);
    var exponent := ReadExponent(fraction.rest);
    if whole.value == [] || exponent.Unread? then Unread
    else Read(Decimal(whole.value, fraction.value, exponent.value), exponent.rest)
  }

  function ReadNumber(t: Text): (r: Parsed<Value>)
    ensures r.Read? ==> |r.rest| < |t| && r.value.Num? && ShortestDecimal(r.value.x)
  {
    var negative := t != [] && t[0] == MINUS;
    var d := ReadUnsigned(if negative then t[1..] else t);
    if d.Unread? then Unread else Read(Num(DecimalNumber(negative, d.value)), d.rest)
  }

  function HexValue(u: Unit): int {
    if IsDigit(u) then u - DIGIT0 else if 97 <= u < 103 then u - 87 else if 65 <= u < 71 then u - 55 else -1
  }

  /** One escape, its backslash already taken. */
  function ReadEscape(t: Text): (r: Parsed<Unit>)
    ensures r.Read? ==> |r.rest| < |t|
  {
    if t == [] then Unread
    else if t[0] == 98 then Read(8, t[1..])
    else if t[0] == 116 then Read(9, t[1..])
    else if t[0] == 110 then Read(10, t[1..])
    else if t[0] == 102 then Read(12, t[1..])
    else if t[0] == 114 then Read(13, t[1..])
    else if t[0] == QUOTE || t[0] == BACKSLASH || t[0] == 47 then Read(t[0], t[1..])
    else if t[0] == 117 && |t| >= 5 && HexValue(t[1]) >= 0 && HexValue(t[2]) >= 0
            && HexValue(t[3]) >= 0 && HexValue(t[4]) >= 0 then
      Read(4096 * HexValue(t[1]) + 256 * HexValue(t[2]) + 16 * HexValue(t[3]) + HexValue(t[4]), t[5..])
    else Unread
  }

  /** A string, its opening quote already taken. */
  function ReadBody(t: Text): (r: Parsed<Text>)
    ensures r.Read? ==> |r.rest| < |t|
    decreases |t|
  {
    if t == [] || t[0] < 32 then Unread
    else if t[0] == QUOTE then Read([], t[1..])
    else
      var unit := if t[0] == BACKSLASH then ReadEscape(t[1..]) else Read(t[0], t[1..]);
      if unit.Unread? then Unread
      else
        var more := ReadBody(unit.rest);
        if more.Unread? then Unread else Read([unit.value] + more.value, more.rest)
  }

  function ReadWord(word: Text, v: Value, t: Text): (r: Parsed<Value>)
    requires word != []
    ensures r.Read? ==> |r.rest| < |t| && r.value == v
  {
    if word <= t then Read(v, t[|word|..]) else Unread
  }

  function ReadValue(t: Text): (r: Parsed<Value>)
    ensures r.Read? ==> |r.rest| < |t|
    decreases |t|, 0
  {
    if t == [] then Unread
    else if t[0] == NULL_TEXT[0] then ReadWord(NULL_TEXT, Null, t)
    else if t[0] == TRUE_TEXT[0] then ReadWord(TRUE_TEXT, Bool(true), t)
    else if t[0] == FALSE_TEXT[0] then ReadWord(FALSE_TEXT, Bool(false), t)
    else if t[0] == QUOTE then
      var s := ReadBody(t[1..]);
      if s.Unread? then Unread else Read(Str(s.value), s.rest)
    else if t[0] == OPEN_BRACKET then
      if |t| > 1 && t[1] == CLOSE_BRACKET then Read(Arr([]), t[2..])
      else
        var items := ReadItems(t[1..]);
        if items.Unread? then Unread else Read(Arr(items.value), items.rest)
    else if t[0] == OPEN_BRACE then
      if |t| > 1 && t[1] == CLOSE_BRACE then Read(Obj([]), t[2..])
      else
        var members := ReadMembers(t[1..]);
        if members.Unread? then Unread else Read(Obj(members.value), members.rest)
    else ReadNumber(t)
  }

  /** The elements of an array up to and with its closing bracket. */
  function ReadItems(t: Text): (r: Parsed<seq<Value>>)
    ensures r.Read? ==> |r.rest| < |t|
    decreases |t|, 1
  {
    var first := ReadValue(t);
    if first.Unread? || first.rest == [] then Unread
    else if first.rest[0] == CLOSE_BRACKET then Read([first.value], first.rest[1..])
    else if first.rest[0] != COMMA then Unread
    else
      var more := ReadItems(first.rest[1..]);
      if more.Unread? then Unread else Read([first.value] + more.value, more.rest)
  }

  function ReadMember(t: Text): (r: Parsed<Entry<Value>>)
    ensures r.Read? ==> |r.rest| < |t|
    decreases |t|, 1
  {
    if t == [] || t[0] != QUOTE then Unread
    else
      var key := ReadBody(t[1..]);
      if key.Unread? || key.rest == [] || key.rest[0] != COLON then Unread
      else
        var value := ReadValue(key.rest[1..]);
        if value.Unread? then Unread else Read(Entry(key.value, value.value), value.rest)
  }

  function ReadMembers(t: Text): (r: Parsed<seq<Entry<Value>>>)
    ensures r.Read? ==> |r.rest| < |t|
    decreases |t|, 2
  {
    var first := ReadMember(t);
    if first.Unread? || first.rest == [] then Unread
    else if first.rest[0] == CLOSE_BRACE then Read([first.value], first.rest[1..])
    else if first.rest[0] != COMMA then Unread
    else
      var more := ReadMembers(first.rest[1..]);
      if more.Unread? then Unread else Read([first.value] + more.value, more.rest)
  }

  // ------------------------------------------------------- the reader undoes it

  /** A tail at which a number certainly ends. */
  predicate Delimited(tail: Text) {
    tail == [] || (!IsDigit(tail[0]) && tail[0] != DOT && tail[0] != EXPONENT)
  }

  lemma {:induction false} ReadDigitsUndoes(ds: seq<Digit>, tail: Text)
    requires tail == [] || !IsDigit(tail[0])
    ensures ReadDigits(DigitText(ds) + tail) == Read(ds, tail)
  {
    var t := DigitText(ds) + tail;
    if ds == [] {
      assert t == tail;
    } else {
      var more := DigitText(ds[1..]) + tail;
      assert t[0] == DIGIT0 + ds[0] && t[1..] == more;
      ReadDigitsUndoes(ds[1..], tail);
      assert ReadDigits(t) == Read([t[0] - DIGIT0] + ReadDigits(more).value, ReadDigits(more).rest);
      assert [ds[0]] + ds[1..] == ds;
    }
  }

  lemma {:induction false} NatValueOfDigits(n: nat)
    ensures NatValue(NatDigits(n)) == n
  {
    var ds := NatDigits(n);
    if n < 10 {
      assert ds[..0] == [];
    } else {
      NatValueOfDigits(n / 10);
      assert ds[..|ds| - 1] == NatDigits(n / 10);
    }
  }

  lemma ReadSignedExponent(sign: Unit, n: nat, tail: Text)
    requires Delimited(tail) && (sign == PLUS || sign == MINUS)
    ensures ReadExponent([EXPONENT, sign] + DigitText(NatDigits(n)) + tail)
            == Read(if sign == PLUS then n as int else -(n as int), tail)
  {
    var ds := NatDigits(n);
    var t := [EXPONENT, sign] + DigitText(ds) + tail;
    assert t[0] == EXPONENT && t[1] == sign && t[2..] == DigitText(ds) + tail;
    ReadDigitsUndoes(ds, tail);
    NatValueOfDigits(n);
  }

  lemma ReadExponentUndoes(e: int, tail: Text)
    requires Delimited(tail)
    ensures ReadExponent(ExponentText(e) + tail) == Read(e, tail)
  {
    if e == 0 {
      assert ExponentText(e) + tail == tail;
    } else {
      ReadSignedExponent(if e > 0 then PLUS else MINUS, if e > 0 then e else -e, tail);
    }
  }

  lemma ReadUnsignedUndoes(d: Decimal, tail: Text)
    requires Delimited(tail) && d.whole != []
    ensures ReadUnsigned(DecimalText(d) + tail) == Read(d, tail)
  {
    var afterFraction := ExponentText(d.exponent) + tail;
    var afterWhole := FractionText(d.fraction) + afterFraction;
    assert DecimalText(d) + tail == DigitText(d.whole) + afterWhole;
    ReadDigitsUndoes(d.whole, afterWhole);
    if d.fraction == [] {
      assert afterWhole == afterFraction;
    } else {
      assert afterWhole[1..] == DigitText(d.fraction) + afterFraction;
      ReadDigitsUndoes(d.fraction, afterFraction);
    }
    ReadExponentUndoes(d.exponent, tail);
  }

  lemma {:induction false} LeadingZerosOf(n: nat, ds: seq<Digit>)
    requires ds != [] && ds[0] != 0
    ensures LeadingZeros(Zeros(n) + ds) == n
  {
    if n == 0 {
      assert Zeros(0) + ds == ds;
    } else {
      assert (Zeros(n) + ds)[1..] == Zeros(n - 1) + ds;
      LeadingZerosOf(n - 1, ds);
    }
  }

  lemma {:induction false} DropTrailingZerosOf(n: nat, ds: seq<Digit>)
    requires ds != [] && ds[|ds| - 1] != 0
    ensures DropTrailingZeros(ds + Zeros(n)) == ds
  {
    if n == 0 {
      assert ds + Zeros(0) == ds;
    } else {
      assert (ds + Zeros(n))[..|ds| + n - 1] == ds + Zeros(n - 1);
      DropTrailingZerosOf(n - 1, ds);
    }
  }

  /** Padding the shortest digits with zeros at either end does not change the number. */
  lemma DecimalNumberOfPadded(negative: bool, d: Decimal, lead: nat, digits: seq<Digit>, trail: nat)
    requires digits != [] && digits[0] != 0 && digits[|digits| - 1] != 0
    requires d.whole + d.fraction == Zeros(lead) + (digits + Zeros(trail))
    ensures DecimalNumber(negative, d) == Finite(negative, digits, |d.whole| - lead + d.exponent)
  {
    var all := d.whole + d.fraction;
    LeadingZerosOf(lead, digits + Zeros(trail));
    assert all[lead..] == digits + Zeros(trail);
    DropTrailingZerosOf(trail, digits);
  }

  /** Every way `Number::toString` lays out the digits denotes the number it started from. */
  lemma DecimalNumberUndoes(negative: bool, digits: seq<Digit>, scale: int)
    requires ShortestDecimal(Finite(negative, digits, scale))
    ensures DecimalNumber(negative, SplitDecimal(digits, scale)) == Finite(negative, digits, scale)
  {
    hide DecimalNumber, LeadingZeros, DropTrailingZeros;
    var d := SplitDecimal(digits, scale);
    var lead := if -6 < scale <= 0 then 1 - scale else 0;
    var trail := if |digits| <= scale <= 21 then scale - |digits| else 0;
    assert d.whole + d.fraction == Zeros(lead) + (digits + Zeros(trail));
    DecimalNumberOfPadded(negative, d, lead, digits, trail);
  }

  lemma ReadZero()
    ensures DecimalNumber(false, Decimal([0], [], 0)) == Zero
  {
    var d := Decimal([0], [], 0);
    assert d.whole + d.fraction == [0];
    assert LeadingZeros(d.whole + d.fraction) == 1;
  }

  lemma ReadNumberUndoes(x: Number, tail: Text)
    requires ShortestDecimal(x) && Delimited(tail)
    ensures ReadNumber(NumberText(x) + tail) == Read(Num(x), tail)
  {
    hide ReadUnsigned, DecimalNumber, SplitDecimal;
    match x
    case Zero =>
      var d := Decimal([0], [], 0);
      ReadZero();
      assert DigitText([0]) == [DIGIT0];
      assert NumberText(x) == DecimalText(d);
      ReadUnsignedUndoes(d, tail);
    case Finite(negative, digits, scale) =>
      var d := SplitDecimal(digits, scale);
      var t := NumberText(x) + tail;
      assert DecimalText(d)[0] == DIGIT0 + d.whole[0];
      if negative {
        assert t[1..] == DecimalText(d) + tail;
      } else {
        assert t == DecimalText(d) + tail;
      }
      ReadUnsignedUndoes(d, tail);
      DecimalNumberUndoes(negative, digits, scale);
  }

  lemma HexValueOf(h: int)
    requires 0 <= h < 16
    ensures HexValue(HexText(h)) == h
  {
  }

  lemma ReadUnicodeEscapeUndoes(u: Unit, tail: Text)
    ensures ReadEscape(UnicodeEscape(u)[1..] + tail) == Read(u, tail)
  {
    hide HexText, HexValue, HexOf;
    var h := HexOf(u);
    var t := UnicodeEscape(u)[1..] + tail;
    HexValueOf(h.a);
    HexValueOf(h.b);
    HexValueOf(h.c);
    HexValueOf(h.d);
    assert t[5..] == tail;
  }

  lemma ReadEscapeUndoes(u: Unit, tail: Text)
    requires QuotedUnit(u)[0] == BACKSLASH
    ensures ReadEscape((QuotedUnit(u) + tail)[1..]) == Read(u, tail)
  {
    var t := (QuotedUnit(u) + tail)[1..];
    assert t == QuotedUnit(u)[1..] + tail;
    if |QuotedUnit(u)| == 2 {
      assert t[0] == QuotedUnit(u)[1] && t[1..] == tail;
    } else {
      ReadUnicodeEscapeUndoes(u, tail);
    }
  }

  lemma ReadBodyStep(t: Text, u: Unit, more: Text, s: Text, tail: Text)
    requires t == QuotedUnit(u) + more || (t == [u] + more && (IsLead(u) || IsTrail(u)))
    requires ReadBody(more) == Read(s, tail)
    ensures ReadBody(t) == Read([u] + s, tail)
  {
    if t == QuotedUnit(u) + more && QuotedUnit(u)[0] == BACKSLASH {
      ReadEscapeUndoes(u, more);
    } else {
      assert t[1..] == more;
    }
  }

  lemma ReadBodyPair(lead: Unit, trail: Unit, more: Text, s: Text, tail: Text)
    requires IsLead(lead) && IsTrail(trail) && ReadBody(more) == Read(s, tail)
    ensures ReadBody([lead, trail] + more) == Read([lead, trail] + s, tail)
  {
    ReadBodyStep([trail] + more, trail, more, s, tail);
    assert [lead, trail] + more == [lead] + ([trail] + more);
    ReadBodyStep([lead, trail] + more, lead, [trail] + more, [trail] + s, tail);
    assert [lead] + ([trail] + s) == [lead, trail] + s;
  }

  lemma ReadBodyEnd(tail: Text)
    ensures ReadBody([QUOTE] + tail) == Read([], tail)
  {
    assert ([QUOTE] + tail)[1..] == tail;
  }

  lemma {:induction false} ReadBodyUndoes(s: Text, tail: Text)
    ensures ReadBody(QuotedBody(s) + [QUOTE] + tail) == Read(s, tail)
    decreases |s|
  {
    hide ReadBody, QuotedUnit;
    var t := QuotedBody(s) + [QUOTE] + tail;
    if s == [] {
      assert t == [QUOTE] + tail;
      ReadBodyEnd(tail);
    } else if IsLead(s[0]) && |s| > 1 && IsTrail(s[1]) {
      var more := QuotedBody(s[2..]) + [QUOTE] + tail;
      ReadBodyUndoes(s[2..], tail);
      ReadBodyPair(s[0], s[1], more, s[2..], tail);
      assert t == [s[0], s[1]] + more;
      assert s == [s[0], s[1]] + s[2..];
    } else {
      var more := QuotedBody(s[1..]) + [QUOTE] + tail;
      ReadBodyUndoes(s[1..], tail);
      assert t == QuotedUnit(s[0]) + more;
      ReadBodyStep(t, s[0], more, s[1..], tail);
      assert s == [s[0]] + s[1..];
    }
  }

  lemma FirstUnitOfNumber(x: Number)
    requires ShortestDecimal(x)
    ensures NumberText(x) != [] && (NumberText(x)[0] == MINUS || IsDigit(NumberText(x)[0]))
  {
    if x.Finite? {
      var d := SplitDecimal(x.digits, x.scale);
      assert DecimalText(d)[0] == DIGIT0 + d.whole[0];
    }
  }

  /** No value begins with a closing mark. */
  lemma FirstUnit(v: Value)
    requires Printable(v)
    ensures Stringify(v) != [] && Stringify(v)[0] != CLOSE_BRACKET
  {
    if v.Num? {
      FirstUnitOfNumber(v.x);
    }
  }

  lemma StringifyMembersOpens(members: seq<Entry<Value>>)
    requires members != []
    requires forall i :: 0 <= i < |members| ==> Printable(members[i].value)
    ensures StringifyMembers(members) != [] && StringifyMembers(members)[0] == QUOTE
  {
  }

  // One step of each reader, seen from the text it leaves.

  lemma ReadItemsLast(t: Text, v: Value, tail: Text)
    requires ReadValue(t) == Read(v, [CLOSE_BRACKET] + tail)
    ensures ReadItems(t) == Read([v], tail)
  {
    assert ([CLOSE_BRACKET] + tail)[1..] == tail;
  }

  lemma ReadItemsMore(t: Text, v: Value, more: Text, vs: seq<Value>, tail: Text)
    requires ReadValue(t) == Read(v, [COMMA] + more) && ReadItems(more) == Read(vs, tail)
    ensures ReadItems(t) == Read([v] + vs, tail)
  {
    assert ([COMMA] + more)[1..] == more;
  }

  lemma ReadMembersLast(t: Text, m: Entry<Value>, tail: Text)
    requires ReadMember(t) == Read(m, [CLOSE_BRACE] + tail)
    ensures ReadMembers(t) == Read([m], tail)
  {
    assert ([CLOSE_BRACE] + tail)[1..] == tail;
  }

  lemma ReadMembersMore(t: Text, m: Entry<Value>, more: Text, ms: seq<Entry<Value>>, tail: Text)
    requires ReadMember(t) == Read(m, [COMMA] + more) && ReadMembers(more) == Read(ms, tail)
    ensures ReadMembers(t) == Read([m] + ms, tail)
  {
    assert ([COMMA] + more)[1..] == more;
  }

  lemma ReadMemberUndoes(key: Text, value: Text, v: Value, tail: Text)
    requires ReadValue(value + tail) == Read(v, tail)
    ensures ReadMember(MemberText(key, value) + tail) == Read(Entry(key, v), tail)
  {
    hide ReadValue, ReadBody, QuotedBody;
    var t := MemberText(key, value) + tail;
    var afterKey := [COLON] + (value + tail);
    assert t[1..] == QuotedBody(key) + [QUOTE] + afterKey;
    ReadBodyUndoes(key, afterKey);
    assert afterKey[1..] == value + tail;
  }

  lemma ReadWordUndoes(v: Value, tail: Text)
    requires v.Null? || v.Bool?
    ensures ReadValue(Stringify(v) + tail) == Read(v, tail)
  {
    var word := Stringify(v);
    assert (word + tail)[0] == word[0] && (word + tail)[|word|..] == tail;
  }

  lemma ReadStringUndoes(s: Text, tail: Text)
    ensures ReadValue(StringText(s) + tail) == Read(Str(s), tail)
  {
    assert (StringText(s) + tail)[1..] == QuotedBody(s) + [QUOTE] + tail;
    ReadBodyUndoes(s, tail);
  }

  lemma ReadsAsNumber(t: Text)
    requires t != [] && (t[0] == MINUS || IsDigit(t[0]))
    ensures ReadValue(t) == ReadNumber(t)
  {
  }

  lemma ReadNumUndoes(x: Number, tail: Text)
    requires ShortestDecimal(x) && Delimited(tail)
    ensures ReadValue(NumberText(x) + tail) == Read(Num(x), tail)
  {
    FirstUnitOfNumber(x);
    assert (NumberText(x) + tail)[0] == NumberText(x)[0];
    ReadsAsNumber(NumberText(x) + tail);
    ReadNumberUndoes(x, tail);
  }

  lemma ReadScalarUndoes(v: Value, tail: Text)
    requires Printable(v) && Delimited(tail) && !v.Arr? && !v.Obj?
    ensures ReadValue(Stringify(v) + tail) == Read(v, tail)
  {
    if v.Num? {
      ReadNumUndoes(v.x, tail);
    } else if v.Str? {
      ReadStringUndoes(v.s, tail);
    } else {
      ReadWordUndoes(v, tail);
    }
  }

  lemma ReadArrayUndoes(body: Text, items: seq<Value>, tail: Text)
    requires body != [] && body[0] != CLOSE_BRACKET
    requires ReadItems(body + [CLOSE_BRACKET] + tail) == Read(items, tail)
    ensures ReadValue([OPEN_BRACKET] + body + [CLOSE_BRACKET] + tail) == Read(Arr(items), tail)
  {
    hide ReadItems, ReadMembers, ReadNumber, ReadBody;
    var t := [OPEN_BRACKET] + body + [CLOSE_BRACKET] + tail;
    var more := body + [CLOSE_BRACKET] + tail;
    assert t[0] == OPEN_BRACKET && t[1] == more[0] == body[0];
    assert t[1..] == more;
  }

  lemma ReadObjectUndoes(body: Text, members: seq<Entry<Value>>, tail: Text)
    requires body != [] && body[0] == QUOTE
    requires ReadMembers(body + [CLOSE_BRACE] + tail) == Read(members, tail)
    ensures ReadValue([OPEN_BRACE] + body + [CLOSE_BRACE] + tail) == Read(Obj(members), tail)
  {
    hide ReadItems, ReadMembers, ReadNumber, ReadBody;
    var t := [OPEN_BRACE] + body + [CLOSE_BRACE] + tail;
    var more := body + [CLOSE_BRACE] + tail;
    assert t[0] == OPEN_BRACE && t[1] == more[0] == body[0];
    assert t[1..] == more;
  }

  /** The reader gives back exactly the printed value and leaves exactly the tail. */
  lemma {:induction false} ReadValueUndoes(v: Value, tail: Text)
    requires Printable(v) && Delimited(tail)
    ensures ReadValue(Stringify(v) + tail) == Read(v, tail)
    decreases v
  {
    if v.Arr? {
      if v.items == [] {
        assert (Stringify(v) + tail)[2..] == tail;
      } else {
        ReadItemsUndoes(v.items, tail);
        FirstUnit(v.items[0]);
        ReadArrayUndoes(StringifyItems(v.items), v.items, tail);
      }
    } else if v.Obj? {
      if v.members == [] {
        assert (Stringify(v) + tail)[2..] == tail;
      } else {
        ReadMembersUndoes(v.members, tail);
        StringifyMembersOpens(v.members);
        ReadObjectUndoes(StringifyMembers(v.members), v.members, tail);
      }
    } else {
      ReadScalarUndoes(v, tail);
    }
  }

  lemma {:induction false} ReadItemsUndoes(items: seq<Value>, tail: Text)
    requires items != []
    requires forall i :: 0 <= i < |items| ==> Printable(items[i])
    ensures ReadItems(StringifyItems(items) + [CLOSE_BRACKET] + tail) == Read(items, tail)
    decreases items
  {
    hide ReadValue, ReadItems, Stringify;
    var t := StringifyItems(items) + [CLOSE_BRACKET] + tail;
    var text := Stringify(items[0]);
    if |items| == 1 {
      assert t == text + ([CLOSE_BRACKET] + tail);
      ReadValueUndoes(items[0], [CLOSE_BRACKET] + tail);
      ReadItemsLast(t, items[0], tail);
      assert items == [items[0]];
    } else {
      var more := StringifyItems(items[1..]) + [CLOSE_BRACKET] + tail;
      assert t == text + ([COMMA] + more);
      ReadValueUndoes(items[0], [COMMA] + more);
      ReadItemsUndoes(items[1..], tail);
      ReadItemsMore(t, items[0], more, items[1..], tail);
      assert items == [items[0]] + items[1..];
    }
  }

  lemma {:induction false} ReadMembersUndoes(members: seq<Entry<Value>>, tail: Text)
    requires members != []
    requires forall i :: 0 <= i < |members| ==> Printable(members[i].value)
    ensures ReadMembers(StringifyMembers(members) + [CLOSE_BRACE] + tail) == Read(members, tail)
    decreases members
  {
    hide ReadValue, ReadMember, ReadMembers, MemberText, Stringify;
    var t := StringifyMembers(members) + [CLOSE_BRACE] + tail;
    var m := members[0];
    var text := MemberText(m.key, Stringify(m.value));
    if |members| == 1 {
      assert t == text + ([CLOSE_BRACE] + tail);
      ReadValueUndoes(m.value, [CLOSE_BRACE] + tail);
      ReadMemberUndoes(m.key, Stringify(m.value), m.value, [CLOSE_BRACE] + tail);
      ReadMembersLast(t, m, tail);
      assert members == [m];
    } else {
      var more := StringifyMembers(members[1..]) + [CLOSE_BRACE] + tail;
      assert t == text + ([COMMA] + more);
      ReadValueUndoes(m.value, [COMMA] + more);
      ReadMemberUndoes(m.key, Stringify(m.value), m.value, [COMMA] + more);
      ReadMembersUndoes(members[1..], tail);
      ReadMembersMore(t, m, more, members[1..], tail);
      assert members == [m] + members[1..];
    }
  }

  // Whatever is read could have been printed: its numbers have their shortest digits.

  lemma {:induction false} ReadValuePrintable(t: Text)
    ensures ReadValue(t).Read? ==> Printable(ReadValue(t).value)
    decreases |t|, 0
  {
    if t != [] && ReadValue(t).Read? {
      if ReadValue(t).value.Arr? && ReadValue(t).value.items != [] {
        ReadItemsPrintable(t[1..]);
      } else if ReadValue(t).value.Obj? && ReadValue(t).value.members != [] {
        ReadMembersPrintable(t[1..]);
      }
    }
  }

  lemma {:induction false} ReadItemsPrintable(t: Text)
    ensures ReadItems(t).Read? ==>
              forall i :: 0 <= i < |ReadItems(t).value| ==> Printable(ReadItems(t).value[i])
    decreases |t|, 1
  {
    ReadValuePrintable(t);
    var first := ReadValue(t);
    if first.Read? && first.rest != [] && first.rest[0] == COMMA {
      ReadItemsPrintable(first.rest[1..]);
    }
  }

  lemma {:induction false} ReadMembersPrintable(t: Text)
    ensures ReadMembers(t).Read? ==>
              forall i :: 0 <= i < |ReadMembers(t).value| ==> Printable(ReadMembers(t).value[i].value)
    decreases |t|, 1
  {
    var first := ReadMember(t);
    if first.Read? {
      var key := ReadBody(t[1..]);
      ReadValuePrintable(key.rest[1..]);
      if first.rest != [] && first.rest[0] == COMMA {
        ReadMembersPrintable(first.rest[1..]);
      }
    }
  }

  /** `JSON.parse` of a whole compact text. */
  function Parse(t: Text): (r: Parsed<Value>)
    ensures r.Read? ==> r.rest == [] && Printable(r.value)
  {
    ReadValuePrintable(t);
    var r := ReadValue(t);
    if r.Read? && r.rest == [] then r else Unread
  }

  lemma ParseUndoes(v: Value)
    requires Printable(v)
    ensures Parse(Stringify(v)) == Read(v, [])
  {
    assert Stringify(v) + [] == Stringify(v);
    ReadValueUndoes(v, []);
  }
}
