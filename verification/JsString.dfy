/** Escaping text for a JavaScript string literal (frontend/deployment/utils.js), against the
    grammar of "String Literals", section 12.9.4 of ECMA-262. */
module JsString {
  import opened Text

  /** A UTF-16 code unit: what a JavaScript string is a sequence of. */
  type Unit = u: int | 0 <= u < 0x1_0000

  const BACKSLASH: Unit := 0x5C
  const DOUBLE: Unit := 0x22
  const SINGLE: Unit := 0x27
  const LF: Unit := 0x0A
  const CR: Unit := 0x0D
  const TAB: Unit := 0x09
  const LOWER_N: Unit := 0x6E
  const LOWER_R: Unit := 0x72
  const LOWER_T: Unit := 0x74

  // ----- The escaper -----

  /** `s.replace(/c/g, sub)` for a one-character pattern. */
  function ReplaceAll(s: seq<Unit>, c: Unit, sub: seq<Unit>): seq<Unit>
  {
    if s == [] then [] else (if s[0] == c then sub else [s[0]]) + ReplaceAll(s[1..], c, sub)
  }

  function EscapeJsString(s: seq<Unit>): seq<Unit>
  {
    if s == [] then []
    else
      var s1 := ReplaceAll(s, BACKSLASH, [BACKSLASH, BACKSLASH]);
      var s2 := ReplaceAll(s1, DOUBLE, [BACKSLASH, DOUBLE]);
      var s3 := ReplaceAll(s2, SINGLE, [BACKSLASH, SINGLE]);
      var s4 := ReplaceAll(s3, LF, [BACKSLASH, LOWER_N]);
      var s5 := ReplaceAll(s4, CR, [BACKSLASH, LOWER_R]);
      ReplaceAll(s5, TAB, [BACKSLASH, LOWER_T])
  }

  // ----- One character at a time -----

  function EscapeUnit(u: Unit): seq<Unit>
  {
    if u == BACKSLASH || u == DOUBLE || u == SINGLE then [BACKSLASH, u]
    else if u == LF then [BACKSLASH, LOWER_N]
    else if u == CR then [BACKSLASH, LOWER_R]
    else if u == TAB then [BACKSLASH, LOWER_T]
    else [u]
  }

  function EscapeEach(s: seq<Unit>): seq<Unit>
  {
    if s == [] then [] else EscapeUnit(s[0]) + EscapeEach(s[1..])
  }

  lemma {:induction false} ReplaceAppend(a: seq<Unit>, b: seq<Unit>, c: Unit, sub: seq<Unit>)
    ensures ReplaceAll(a + b, c, sub) == ReplaceAll(a, c, sub) + ReplaceAll(b, c, sub)
  {
    if a == [] {
      assert a + b == b;
    } else {
      assert (a + b)[1..] == a[1..] + b;
      ReplaceAppend(a[1..], b, c, sub);
    }
  }

  /** The six passes, without the test for the empty string. */
  function SixPasses(s: seq<Unit>): seq<Unit>
  {
    ReplaceAll(
      ReplaceAll(
        ReplaceAll(
          ReplaceAll(
            ReplaceAll(
              ReplaceAll(s, BACKSLASH, [BACKSLASH, BACKSLASH]),
              DOUBLE, [BACKSLASH, DOUBLE]),
            SINGLE, [BACKSLASH, SINGLE]),
          LF, [BACKSLASH, LOWER_N]),
        CR, [BACKSLASH, LOWER_R]),
      TAB, [BACKSLASH, LOWER_T])
  }

  lemma SixPassesAppend(a: seq<Unit>, b: seq<Unit>)
    ensures SixPasses(a + b) == SixPasses(a) + SixPasses(b)
  {
    var a1, b1 := ReplaceAll(a, BACKSLASH, [BACKSLASH, BACKSLASH]), ReplaceAll(b, BACKSLASH, [BACKSLASH, BACKSLASH]);
    var a2, b2 := ReplaceAll(a1, DOUBLE, [BACKSLASH, DOUBLE]), ReplaceAll(b1, DOUBLE, [BACKSLASH, DOUBLE]);
    var a3, b3 := ReplaceAll(a2, SINGLE, [BACKSLASH, SINGLE]), ReplaceAll(b2, SINGLE, [BACKSLASH, SINGLE]);
    var a4, b4 := ReplaceAll(a3, LF, [BACKSLASH, LOWER_N]), ReplaceAll(b3, LF, [BACKSLASH, LOWER_N]);
    var a5, b5 := ReplaceAll(a4, CR, [BACKSLASH, LOWER_R]), ReplaceAll(b4, CR, [BACKSLASH, LOWER_R]);
    ReplaceAppend(a, b, BACKSLASH, [BACKSLASH, BACKSLASH]);
    ReplaceAppend(a1, b1, DOUBLE, [BACKSLASH, DOUBLE]);
    ReplaceAppend(a2, b2, SINGLE, [BACKSLASH, SINGLE]);
    ReplaceAppend(a3, b3, LF, [BACKSLASH, LOWER_N]);
    ReplaceAppend(a4, b4, CR, [BACKSLASH, LOWER_R]);
    ReplaceAppend(a5, b5, TAB, [BACKSLASH, LOWER_T]);
  }

  lemma {:induction false} ReplaceAbsent(e: seq<Unit>, c: Unit, sub: seq<Unit>)
    requires Without(e, c)
    ensures ReplaceAll(e, c, sub) == e
  {
    if e != [] {
      ReplaceAbsent(e[1..], c, sub);
    }
  }

  lemma ReplaceOne(c: Unit, sub: seq<Unit>)
    ensures ReplaceAll([c], c, sub) == sub
  {
    assert ReplaceAll([c], c, sub) == sub + ReplaceAll([], c, sub);
  }

  /** One pass over the escape of `u` that the passes before have made. */
  lemma Pass(e: seq<Unit>, u: Unit, c: Unit, sub: seq<Unit>)
    requires if u == c then e == [u] else Without(e, c)
    ensures ReplaceAll(e, c, sub) == if u == c then sub else e
  {
    if u == c {
      ReplaceOne(c, sub);
    } else {
      ReplaceAbsent(e, c, sub);
    }
  }

  /** A later pass never touches what an earlier one put in: this is why backslash comes first. */
  lemma SixPassesUnit(u: Unit)
    ensures SixPasses([u]) == EscapeUnit(u)
  {
    var s1 := if u == BACKSLASH then [BACKSLASH, u] else [u];
    var s2 := if u == DOUBLE then [BACKSLASH, u] else s1;
    var s3 := if u == SINGLE then [BACKSLASH, u] else s2;
    var s4 := if u == LF then [BACKSLASH, LOWER_N] else s3;
    var s5 := if u == CR then [BACKSLASH, LOWER_R] else s4;
    Pass([u], u, BACKSLASH, [BACKSLASH, BACKSLASH]);
    Pass(s1, u, DOUBLE, [BACKSLASH, DOUBLE]);
    Pass(s2, u, SINGLE, [BACKSLASH, SINGLE]);
    Pass(s3, u, LF, [BACKSLASH, LOWER_N]);
    Pass(s4, u, CR, [BACKSLASH, LOWER_R]);
    Pass(s5, u, TAB, [BACKSLASH, LOWER_T]);
  }

  lemma {:induction false} PassesAreEscapeEach(s: seq<Unit>)
    ensures EscapeJsString(s) == EscapeEach(s)
  {
    if s != [] {
      PassesAreEscapeEach(s[1..]);
      assert s == [s[0]] + s[1..];
      SixPassesAppend([s[0]], s[1..]);
      SixPassesUnit(s[0]);
      assert s[1..] == [] ==> SixPasses(s[1..]) == [];
    }
  }

  // ----- Reading a literal -----

  datatype Literal =
    | Closed(value: seq<Unit>, rest: seq<Unit>)  // the value of the literal and the text after it
    | Broken                                     // a line ends, or the text ends, inside the literal
    | Unsupported                                // a hexadecimal, Unicode, digit or line-continuation escape

  /** SingleEscapeCharacter and NonEscapeCharacter; the empty sequence stands for the longer escapes. */
  function Unescape(u: Unit): seq<Unit>
  {
    if u == LOWER_N then [LF]
    else if u == LOWER_R then [CR]
    else if u == LOWER_T then [TAB]
    else if u == 0x62 then [0x08]
    else if u == 0x66 then [0x0C]
    else if u == 0x76 then [0x0B]
    else if u == 0x78 || u == 0x75 || 0x30 <= u <= 0x39 then []
    else if u == LF || u == CR || u == 0x2028 || u == 0x2029 then []
    else [u]
  }

  /** What the text after an opening quote holds, up to the first closing one. */
  function ReadBody(text: seq<Unit>, quote: Unit): Literal
    decreases |text|
  {
    if text == [] || text[0] == LF || text[0] == CR then Broken
    else if text[0] == quote then Closed([], text[1..])
    else if text[0] == BACKSLASH then
      if |text| == 1 then Broken
      else if Unescape(text[1]) == [] then Unsupported
      else Prepend(Unescape(text[1]), ReadBody(text[2..], quote))
    else Prepend([text[0]], ReadBody(text[1..], quote))
  }

  function Prepend(value: seq<Unit>, l: Literal): Literal
  {
    if l.Closed? then l.(value := value + l.value) else l
  }

  /** A string literal at the start of a text. */
  function ReadLiteral(text: seq<Unit>): Literal
  {
    if text != [] && (text[0] == DOUBLE || text[0] == SINGLE) then ReadBody(text[1..], text[0]) else Broken
  }

  lemma ReadEscapedUnit(u: Unit, text: seq<Unit>, quote: Unit)
    requires quote == DOUBLE || quote == SINGLE
    ensures ReadBody(EscapeUnit(u) + text, quote) == Prepend([u], ReadBody(text, quote))
  {
    var e := EscapeUnit(u) + text;
    if |EscapeUnit(u)| == 2 {
      assert e[0] == BACKSLASH && e[2..] == text;
      assert Unescape(e[1]) == [u];
    } else {
      assert e[0] == u && e[1..] == text;
    }
  }

  lemma {:induction false} ReadEscapedBody(s: seq<Unit>, quote: Unit, rest: seq<Unit>)
    requires quote == DOUBLE || quote == SINGLE
    ensures ReadBody(EscapeEach(s) + ([quote] + rest), quote) == Closed(s, rest)
  {
    var end := [quote] + rest;
    if s == [] {
      assert EscapeEach(s) + end == end && end[1..] == rest;
    } else {
      ReadEscapedBody(s[1..], quote, rest);
      ReadEscapedUnit(s[0], EscapeEach(s[1..]) + end, quote);
      Assoc(EscapeUnit(s[0]), EscapeEach(s[1..]), end);
      assert s == [s[0]] + s[1..];
    }
  }

  /** Between quotes of either kind the escaped text is one literal: it has the original text as
      its value and ends at the closing quote, whatever comes after. */
  lemma LiteralReadsBack(s: seq<Unit>, quote: Unit, rest: seq<Unit>)
    requires quote == DOUBLE || quote == SINGLE
    ensures ReadLiteral([quote] + EscapeJsString(s) + [quote] + rest) == Closed(s, rest)
  {
    PassesAreEscapeEach(s);
    ReadEscapedBody(s, quote, rest);
    var text := [quote] + EscapeJsString(s) + [quote] + rest;
    assert text[1..] == EscapeEach(s) + ([quote] + rest);
  }

  /** Distinct texts have distinct escapes. */
  lemma EscapeIsInjective(s: seq<Unit>, t: seq<Unit>)
    requires EscapeJsString(s) == EscapeJsString(t)
    ensures s == t
  {
    LiteralReadsBack(s, DOUBLE, []);
    LiteralReadsBack(t, DOUBLE, []);
  }

  /** Escaping quotes before backslashes would let a quote end its literal early. */
  lemma PassOrderMatters(rest: seq<Unit>)
    ensures var quoted := ReplaceAll([DOUBLE], DOUBLE, [BACKSLASH, DOUBLE]);
      var wrong := ReplaceAll(quoted, BACKSLASH, [BACKSLASH, BACKSLASH]);
      ReadLiteral([DOUBLE] + wrong + [DOUBLE] + rest) == Closed([BACKSLASH], [DOUBLE] + rest)
  {
    var pair, wrong := [BACKSLASH, DOUBLE], [BACKSLASH, BACKSLASH, DOUBLE];
    ReplaceOne(DOUBLE, pair);
    ReplaceAbsent(pair[1..], BACKSLASH, [BACKSLASH, BACKSLASH]);
    assert ReplaceAll(pair, BACKSLASH, [BACKSLASH, BACKSLASH]) == wrong;
    var body := [BACKSLASH, BACKSLASH, DOUBLE] + [DOUBLE] + rest;
    assert ([DOUBLE] + wrong + [DOUBLE] + rest)[1..] == body;
    assert body[2..] == [DOUBLE] + ([DOUBLE] + rest);
    assert ReadBody(body[2..], DOUBLE) == Closed([], [DOUBLE] + rest) by {
      assert body[2..][1..] == [DOUBLE] + rest;
    }
  }
}
