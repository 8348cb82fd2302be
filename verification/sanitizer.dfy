/** Escaping text for JSON by five chained replacements (src/main/java/com/shoppingcart/order/config/InputSanitizer.java). */
module Sanitizer {
  import opened Orders

  /** A Java char: one UTF-16 code unit. */
  type CodeUnit = c: nat | c < 0x10000

  type Text = seq<CodeUnit>

  const TAB: CodeUnit := 9
  const LF: CodeUnit := 10
  const CR: CodeUnit := 13
  const QUOTE: CodeUnit := 0x22
  const SLASH: CodeUnit := 0x2F
  const BACKSLASH: CodeUnit := 0x5C

  const LOWER_B: CodeUnit := 0x62
  const LOWER_F: CodeUnit := 0x66
  const LOWER_N: CodeUnit := 0x6E
  const LOWER_R: CodeUnit := 0x72
  const LOWER_T: CodeUnit := 0x74
  const LOWER_U: CodeUnit := 0x75

  /** The code units are those of the characters they stand for. */
  lemma CodeUnitsAreCharacters()
    ensures [BACKSLASH, QUOTE, SLASH, TAB, LF, CR] ==
            ['\\' as int, '\"' as int, '/' as int, '\t' as int, '\n' as int, '\r' as int]
    ensures [LOWER_B, LOWER_F, LOWER_N, LOWER_R, LOWER_T, LOWER_U] ==
            ['b' as int, 'f' as int, 'n' as int, 'r' as int, 't' as int, 'u' as int]
  {
  }

  /** String.replace with a target of one char. */
  function Replace(s: Text, target: CodeUnit, replacement: Text): Text {
    if s == [] then []
    else (if s[0] == target then replacement else [s[0]]) + Replace(s[1..], target, replacement)
  }

  function SanitizeForJson(input: Option<Text>): Option<Text> {
    if input.None? then None else Some(Sanitized(input.value))
  }

  function Sanitized(s: Text): Text {
    var a := Replace(s, BACKSLASH, [BACKSLASH, BACKSLASH]);
    var b := Replace(a, QUOTE, [BACKSLASH, QUOTE]);
    var c := Replace(b, LF, [BACKSLASH, LOWER_N]);
    var d := Replace(c, CR, [BACKSLASH, LOWER_R]);
    Replace(d, TAB, [BACKSLASH, LOWER_T])
  }

  // ---------------------------------------------------------------- one pass instead of five

  function Escape(c: CodeUnit): Text {
    if c == BACKSLASH then [BACKSLASH, BACKSLASH]
    else if c == QUOTE then [BACKSLASH, QUOTE]
    else if c == LF then [BACKSLASH, LOWER_N]
    else if c == CR then [BACKSLASH, LOWER_R]
    else if c == TAB then [BACKSLASH, LOWER_T]
    else [c]
  }

  function EscapeEach(s: Text): Text {
    if s == [] then [] else Escape(s[0]) + EscapeEach(s[1..])
  }

  lemma {:induction false} ReplaceConcat(a: Text, b: Text, target: CodeUnit, replacement: Text)
    ensures Replace(a + b, target, replacement) == Replace(a, target, replacement) + Replace(b, target, replacement)
  {
    if a == [] {
      assert a + b == b;
    } else {
      assert (a + b)[0] == a[0] && (a + b)[1..] == a[1..] + b;
      ReplaceConcat(a[1..], b, target, replacement);
    }
  }

  lemma SanitizedConcat(a: Text, b: Text)
    ensures Sanitized(a + b) == Sanitized(a) + Sanitized(b)
  {
    var p, q := [BACKSLASH, BACKSLASH], [BACKSLASH, QUOTE];
    var n, r, t := [BACKSLASH, LOWER_N], [BACKSLASH, LOWER_R], [BACKSLASH, LOWER_T];
    ReplaceConcat(a, b, BACKSLASH, p);
    var a1, b1 := Replace(a, BACKSLASH, p), Replace(b, BACKSLASH, p);
    ReplaceConcat(a1, b1, QUOTE, q);
    var a2, b2 := Replace(a1, QUOTE, q), Replace(b1, QUOTE, q);
    ReplaceConcat(a2, b2, LF, n);
    var a3, b3 := Replace(a2, LF, n), Replace(b2, LF, n);
    ReplaceConcat(a3, b3, CR, r);
    var a4, b4 := Replace(a3, CR, r), Replace(b3, CR, r);
    ReplaceConcat(a4, b4, TAB, t);
  }

  lemma ReplaceOne(c: CodeUnit, target: CodeUnit, replacement: Text)
    ensures Replace([c], target, replacement) == if c == target then replacement else [c]
  {
    assert Replace([c][1..], target, replacement) == [];
  }

  lemma ReplaceTwo(c: CodeUnit, d: CodeUnit, target: CodeUnit, replacement: Text)
    requires c != target && d != target
    ensures Replace([c, d], target, replacement) == [c, d]
  {
    ReplaceConcat([c], [d], target, replacement);
    ReplaceOne(c, target, replacement);
    ReplaceOne(d, target, replacement);
  }

  /** No replacement touches what an earlier one put in: the backslash, which they all put in, goes first. */
  lemma SanitizedOne(c: CodeUnit)
    ensures Sanitized([c]) == Escape(c)
  {
    var q, n, r, t := [BACKSLASH, QUOTE], [BACKSLASH, LOWER_N], [BACKSLASH, LOWER_R], [BACKSLASH, LOWER_T];
    ReplaceOne(c, BACKSLASH, [BACKSLASH, BACKSLASH]);
    ReplaceOne(c, QUOTE, q);
    ReplaceOne(c, LF, n);
    ReplaceOne(c, CR, r);
    ReplaceOne(c, TAB, t);
    ReplaceTwo(BACKSLASH, BACKSLASH, QUOTE, q);
    ReplaceTwo(BACKSLASH, BACKSLASH, LF, n);
    ReplaceTwo(BACKSLASH, BACKSLASH, CR, r);
    ReplaceTwo(BACKSLASH, BACKSLASH, TAB, t);
    ReplaceTwo(BACKSLASH, QUOTE, LF, n);
    ReplaceTwo(BACKSLASH, QUOTE, CR, r);
    ReplaceTwo(BACKSLASH, QUOTE, TAB, t);
    ReplaceTwo(BACKSLASH, LOWER_N, CR, r);
    ReplaceTwo(BACKSLASH, LOWER_N, TAB, t);
    ReplaceTwo(BACKSLASH, LOWER_R, TAB, t);
  }

  /** The five whole-string replacements are one map over the characters. */
  lemma {:induction false} SanitizedEscapesEach(s: Text)
    ensures Sanitized(s) == EscapeEach(s)
  {
    if s != [] {
      assert s == [s[0]] + s[1..];
      SanitizedConcat([s[0]], s[1..]);
      SanitizedOne(s[0]);
      SanitizedEscapesEach(s[1..]);
    }
  }

  // ---------------------------------------------------------------- section 7 of RFC 8259

  function HexDigit(c: CodeUnit): (r: Option<nat>)
    ensures r.Some? ==> r.value < 16
  {
    if 0x30 <= c <= 0x39 then Some(c - 0x30)
    else if 0x41 <= c <= 0x46 then Some(c - 0x41 + 10)
    else if 0x61 <= c <= 0x66 then Some(c - 0x61 + 10)
    else None
  }

  /** Four hexadecimal digits. */
  function Hex4(t: Text): Option<CodeUnit>
    requires |t| == 4
  {
    var a, b, c, d := HexDigit(t[0]), HexDigit(t[1]), HexDigit(t[2]), HexDigit(t[3]);
    if a.Some? && b.Some? && c.Some? && d.Some?
    then Some(((a.value * 16 + b.value) * 16 + c.value) * 16 + d.value) else None
  }

  /** The character an escape of two characters stands for. */
  function ShortEscape(c: CodeUnit): Option<CodeUnit> {
    if c == QUOTE || c == BACKSLASH || c == SLASH then Some(c)
    else if c == LOWER_B then Some(8)
    else if c == LOWER_F then Some(12)
    else if c == LOWER_N then Some(LF)
    else if c == LOWER_R then Some(CR)
    else if c == LOWER_T then Some(TAB)
    else None
  }

  /** The first character a string body stands for, and how much of the body it takes; raw says which it may leave unescaped. */
  function Head(t: Text, raw: CodeUnit -> bool): (r: Option<(CodeUnit, nat)>)
    requires t != []
    ensures r.Some? ==> 0 < r.value.1 <= |t|
  {
    if t[0] == BACKSLASH then
      if |t| >= 2 && ShortEscape(t[1]).Some? then Some((ShortEscape(t[1]).value, 2))
      else if |t| >= 6 && t[1] == LOWER_U && Hex4(t[2..6]).Some? then Some((Hex4(t[2..6]).value, 6))
      else None
    else if raw(t[0]) then Some((t[0], 1))
    else None
  }

  /** The other escapes of the section: a solidus, backspace, form feed, and four hexadecimal digits in either case. */
  lemma OtherEscapes(rest: Text, raw: CodeUnit -> bool)
    ensures Head([BACKSLASH, '/' as int] + rest, raw) == Some(('/' as int, 2))
    ensures Head([BACKSLASH, 'b' as int] + rest, raw) == Some((8, 2)) && Head([BACKSLASH, 'f' as int] + rest, raw) == Some((12, 2))
    ensures Head([BACKSLASH, 'u' as int, '2' as int, '0' as int, 'A' as int, 'c' as int] + rest, raw) == Some((0x20AC, 6))
    ensures Head([BACKSLASH, 'x' as int] + rest, raw) == None && Head([BACKSLASH], raw) == None
  {
    var body := [BACKSLASH, 'u' as int, '2' as int, '0' as int, 'A' as int, 'c' as int] + rest;
    assert body[2..6] == ['2' as int, '0' as int, 'A' as int, 'c' as int];
  }

  /** What a string body stands for, if it is one. */
  function Unescape(t: Text, raw: CodeUnit -> bool): Option<Text>
    decreases |t|
  {
    if t == [] then Some([])
    else
      var head := Head(t, raw);
      if head.None? then None
      else
        var rest := Unescape(t[head.value.1..], raw);
        if rest.None? then None else Some([head.value.0] + rest.value)
  }

  /** unescaped = %x20-21 / %x23-5B / %x5D-10FFFF */
  function Unescaped(): CodeUnit -> bool {
    c => c >= 0x20 && c != QUOTE && c != BACKSLASH
  }

  /** Readers that let control characters through. */
  function Lenient(): CodeUnit -> bool {
    c => c != QUOTE && c != BACKSLASH
  }

  predicate LegalBody(t: Text) {
    Unescape(t, Unescaped()).Some?
  }

  /** Nothing but the three control characters that are escaped. */
  predicate Printable(c: CodeUnit) {
    c >= 0x20 || c == LF || c == CR || c == TAB
  }

  lemma EscapedHead(c: CodeUnit, rest: Text, raw: CodeUnit -> bool)
    requires raw == Unescaped() || raw == Lenient()
    ensures var t := Escape(c) + rest;
            t != [] && t[|Escape(c)|..] == rest
            && Head(t, raw) == if |Escape(c)| == 2 || raw(c) then Some((c, |Escape(c)|)) else None
  {
    var t := Escape(c) + rest;
    assert t[|Escape(c)|..] == rest;
  }

  /** Reading strictly, what was sanitized is restored exactly when its control characters are all escaped ones. */
  lemma {:induction false} StrictReading(s: Text)
    ensures Unescape(EscapeEach(s), Unescaped()) == if forall i :: 0 <= i < |s| ==> Printable(s[i]) then Some(s) else None
  {
    if s != [] {
      EscapedHead(s[0], EscapeEach(s[1..]), Unescaped());
      StrictReading(s[1..]);
      assert forall i :: 1 <= i < |s| ==> s[i] == s[1..][i - 1];
      assert (forall i :: 0 <= i < |s| ==> Printable(s[i]))
        <==> Printable(s[0]) && forall i :: 0 <= i < |s[1..]| ==> Printable(s[1..][i]);
      assert s == [s[0]] + s[1..];
    }
  }

  lemma {:induction false} LenientReading(s: Text)
    ensures Unescape(EscapeEach(s), Lenient()) == Some(s)
  {
    if s != [] {
      EscapedHead(s[0], EscapeEach(s[1..]), Lenient());
      LenientReading(s[1..]);
      assert s == [s[0]] + s[1..];
    }
  }

  /** Unescaping restores every input. */
  lemma SanitizeRoundTrip(s: Text)
    ensures Unescape(Sanitized(s), Lenient()) == Some(s)
    ensures LegalBody(Sanitized(s)) ==> Unescape(Sanitized(s), Unescaped()) == Some(s)
  {
    SanitizedEscapesEach(s);
    LenientReading(s);
    StrictReading(s);
  }

  /** So no two inputs are confused, null included. */
  lemma SanitizeIsInjective(a: Option<Text>, b: Option<Text>)
    requires SanitizeForJson(a) == SanitizeForJson(b)
    ensures a == b
  {
    if a.Some? && b.Some? {
      SanitizeRoundTrip(a.value);
      SanitizeRoundTrip(b.value);
    }
  }

  /** The output is a legal body exactly when the input has no control character but line feed, carriage return and tab. */
  lemma LegalExactlyWhenPrintable(s: Text)
    ensures LegalBody(Sanitized(s)) <==> forall i :: 0 <= i < |s| ==> Printable(s[i])
  {
    SanitizedEscapesEach(s);
    StrictReading(s);
  }
}
