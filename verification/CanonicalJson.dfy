/** The canonical text behind the weak ETag of a JSON payload (services/api/helper/httpcache.go). */
module CanonicalJson {
  import opened Text
  import opened Unicode

  // ----- Values -----

  type Whole = s: string | s != "" && forall i :: 0 <= i < |s| ==> '0' <= s[i] <= '9' witness "0"
  type Digits = s: string | forall i :: 0 <= i < |s| ==> '0' <= s[i] <= '9'

  /** A float64 named by its shortest exact decimal, which identifies it. */
  datatype Decimal = Decimal(negative: bool, whole: Whole, fraction: Digits)

  /** What `json.Unmarshal` builds. An object is a map: it has no order of its own. */
  datatype Json =
    | Null
    | Bool(b: bool)
    | Str(s: string)
    | Num(n: Decimal)
    | Arr(items: seq<Json>)
    | Obj(members: map<string, Json>)

  // ----- strconv.FormatFloat(x, 'f', -1, 64) -----

  function Sign(n: Decimal): string
  {
    if n.negative then "-" else ""
  }

  function Fraction(n: Decimal): string
  {
    if n.fraction == "" then "" else "." + n.fraction
  }

  function FormatFloat(n: Decimal): string
  {
    Sign(n) + (n.whole + Fraction(n))
  }

  const IS_DIGIT: char -> bool := c => '0' <= c <= '9'
  const IS_NUMERIC: char -> bool := c => '0' <= c <= '9' || c == '-' || c == '.'

  lemma FormatFloatIsNumeric(n: Decimal)
    ensures All(FormatFloat(n), IS_NUMERIC)
  {
  }

  lemma SignShows(n: Decimal)
    ensures n.negative <==> FormatFloat(n) != "" && FormatFloat(n)[0] == '-'
  {
    if !n.negative {
      assert FormatFloat(n) == n.whole + Fraction(n);
    }
  }

  lemma FormatFloatInjective(n: Decimal, m: Decimal)
    requires FormatFloat(n) == FormatFloat(m)
    ensures n == m
  {
    SignShows(n);
    SignShows(m);
    CancelLeft(Sign(n), n.whole + Fraction(n), m.whole + Fraction(m));
    MaximalMunch(IS_DIGIT, n.whole, Fraction(n), m.whole, Fraction(m));
    FractionInjective(n, m);
  }

  lemma FractionInjective(n: Decimal, m: Decimal)
    requires Fraction(n) == Fraction(m)
    ensures n.fraction == m.fraction
  {
    if n.fraction != "" && m.fraction != "" {
      CancelLeft(".", n.fraction, m.fraction);
    }
  }

  // ----- strconv.Quote -----

  function HexDigit(d: nat): char
    requires d < 16
  {
    "0123456789abcdef"[d]
  }

  /** `n` in exactly `width` lower-case hexadecimal digits. */
  function Hex(n: nat, width: nat): (h: string)
    ensures |h| == width
  {
    if width == 0 then "" else Hex(n / 16, width - 1) + [HexDigit(n % 16)]
  }

  function Pow16(width: nat): nat
  {
    if width == 0 then 1 else 16 * Pow16(width - 1)
  }

  lemma {:induction false} HexInjective(n: nat, m: nat, width: nat)
    requires n < Pow16(width) && m < Pow16(width)
    requires Hex(n, width) == Hex(m, width)
    ensures n == m
  {
    if width > 0 {
      var a, b := Hex(n / 16, width - 1), Hex(m / 16, width - 1);
      assert Hex(n, width)[..width - 1] == a && Hex(m, width)[..width - 1] == b;
      assert Hex(n, width)[width - 1] == HexDigit(n % 16) && Hex(m, width)[width - 1] == HexDigit(m % 16);
      HexInjective(n / 16, m / 16, width - 1);
    }
  }

  function DigitValue(c: char): nat
  {
    if '0' <= c <= '9' then (c - '0') as nat else if 'a' <= c <= 'f' then (c - 'a') as nat + 10 else 0
  }

  function FromHex(h: string): nat
  {
    if h == "" then 0 else 16 * FromHex(h[..|h| - 1]) + DigitValue(h[|h| - 1])
  }

  /** The digits are those of the number, the highest first. */
  lemma {:induction false} HexReadsBack(n: nat, width: nat)
    requires n < Pow16(width)
    ensures FromHex(Hex(n, width)) == n
  {
    if width > 0 {
      HexReadsBack(n / 16, width - 1);
      FromHexOneMore(Hex(n / 16, width - 1), HexDigit(n % 16));
      DigitReadsBack(n % 16);
    }
  }

  lemma FromHexOneMore(h: string, c: char)
    ensures FromHex(h + [c]) == 16 * FromHex(h) + DigitValue(c)
  {
    assert (h + [c])[..|h|] == h;
  }

  lemma DigitReadsBack(d: nat)
    requires d < 16
    ensures DigitValue(HexDigit(d)) == d
  {
  }

  /** One rune inside a quoted string. `printable` stands for `strconv.IsPrint`. */
  function EscapeRune(printable: char -> bool, c: char): string
  {
    if c == '"' || c == '\\' then ['\\', c]
    else if printable(c) then [c]
    else if c == '\U{07}' then "\\a"
    else if c == '\U{08}' then "\\b"
    else if c == '\U{0C}' then "\\f"
    else if c == '\n' then "\\n"
    else if c == '\r' then "\\r"
    else if c == '\t' then "\\t"
    else if c == '\U{0B}' then "\\v"
    else if c < ' ' || c == '\U{7F}' then "\\x" + Hex(c as nat, 2)
    else if c as nat < 0x1_0000 then "\\u" + Hex(c as nat, 4)
    else "\\U" + Hex(c as nat, 8)
  }

  /** The rest of a quoted string, with its closing quote. */
  function QuoteTail(printable: char -> bool, s: string): string
  {
    if s == "" then "\"" else EscapeRune(printable, s[0]) + QuoteTail(printable, s[1..])
  }

  function Quote(printable: char -> bool, s: string): string
  {
    "\"" + QuoteTail(printable, s)
  }

  /** How many characters the escape of a rune takes is settled by its first two. */
  function EscapeLength(first: char, second: char): nat
  {
    if first != '\\' then 1
    else if second == 'x' then 4
    else if second == 'u' then 6
    else if second == 'U' then 10
    else 2
  }

  lemma EscapeShape(printable: char -> bool, c: char)
    ensures var e := EscapeRune(printable, c);
      && e != "" && e[0] != '"'
      && (e[0] == '\\' ==> |e| >= 2)
      && |e| == EscapeLength(e[0], if |e| > 1 then e[1] else ' ')
  {
  }

  lemma EscapeInjective(printable: char -> bool, c: char, d: char)
    requires EscapeRune(printable, c) == EscapeRune(printable, d)
    ensures c == d
  {
    var e := EscapeRune(printable, c);
    if |e| > 2 {
      var w := |e| - 2;
      assert e[2..] == Hex(c as nat, w) == Hex(d as nat, w);
      assert Pow16(2) == 256 && Pow16(4) == 0x1_0000 && Pow16(8) == 0x1_0000_0000 by {
        assert Pow16(3) == 4096 && Pow16(5) == 0x10_0000 && Pow16(6) == 0x100_0000;
      }
      HexInjective(c as nat, d as nat, w);
    }
  }

  /** No escape is a proper prefix of another one. */
  lemma EscapePrefixFree(printable: char -> bool, c: char, t: string, d: char, u: string)
    requires EscapeRune(printable, c) + t == EscapeRune(printable, d) + u
    ensures c == d && t == u
  {
    var e, f := EscapeRune(printable, c), EscapeRune(printable, d);
    EscapeShape(printable, c);
    EscapeShape(printable, d);
    assert (e + t)[0] == e[0] && (f + u)[0] == f[0];
    if e[0] == '\\' {
      assert (e + t)[1] == e[1] && (f + u)[1] == f[1];
    }
    assert |e| == |f|;
    assert e == (e + t)[..|e|] && f == (f + u)[..|e|];
    EscapeInjective(printable, c, d);
    CancelLeft(e, t, u);
  }

  lemma TailStart(printable: char -> bool, s: string, t: string)
    ensures var b := QuoteTail(printable, s) + t;
      b[0] == '"' <==> s == ""
  {
    if s != "" {
      EscapeShape(printable, s[0]);
    }
  }

  /** A quoted string ends at the first quote that no escape covers, and says what it quotes. */
  lemma {:induction false} QuoteTailReadable(printable: char -> bool, s: string, t: string, r: string, u: string)
    requires QuoteTail(printable, s) + t == QuoteTail(printable, r) + u
    ensures s == r && t == u
    decreases |s|
  {
    TailStart(printable, s, t);
    TailStart(printable, r, u);
    if s == "" && r == "" {
      CancelLeft("\"", t, u);
    } else if s != "" && r != "" {
      var a, b := QuoteTail(printable, s[1..]), QuoteTail(printable, r[1..]);
      Assoc(EscapeRune(printable, s[0]), a, t);
      Assoc(EscapeRune(printable, r[0]), b, u);
      EscapePrefixFree(printable, s[0], a + t, r[0], b + u);
      QuoteTailReadable(printable, s[1..], t, r[1..], u);
      assert s == [s[0]] + s[1..] && r == [r[0]] + r[1..];
    }
  }

  lemma QuoteReadable(printable: char -> bool, s: string, t: string, r: string, u: string)
    requires Quote(printable, s) + t == Quote(printable, r) + u
    ensures s == r && t == u
  {
    var a, b := QuoteTail(printable, s), QuoteTail(printable, r);
    Assoc("\"", a, t);
    Assoc("\"", b, u);
    CancelLeft("\"", a + t, b + u);
    QuoteTailReadable(printable, s, t, r, u);
  }

  // ----- Sorted key lists -----

  ghost predicate Sorted(keys: seq<string>)
  {
    forall i, j :: 0 <= i < j < |keys| ==> AtMost(keys[i], keys[j])
  }

  /** The order told by the first place where two keys differ. */
  ghost predicate InOrder(keys: seq<string>)
  {
    forall i, j :: 0 <= i < j < |keys| ==> !Precedes(keys[j], keys[i])
  }

  lemma SortedIsInOrder(keys: seq<string>)
    requires Sorted(keys)
    ensures InOrder(keys)
  {
    forall i, j | 0 <= i < j < |keys|
      ensures !Precedes(keys[j], keys[i])
    {
      LessMeaning(keys[j], keys[i]);
    }
  }

  /** `keys` lists the set `ks` once each, in increasing order. */
  ghost predicate Lists(keys: seq<string>, ks: set<string>)
  {
    && (forall i, j :: 0 <= i < j < |keys| ==> Less(keys[i], keys[j]))
    && (forall k :: k in keys <==> k in ks)
  }

  lemma {:induction false} ListsUnique(a: seq<string>, b: seq<string>, ks: set<string>)
    requires Lists(a, ks) && Lists(b, ks)
    ensures a == b
    decreases |a|
  {
    if a != [] { assert a[0] in ks; }
    if b != [] { assert b[0] in ks; }
    if a != [] && b != [] {
      var i :| 0 <= i < |a| && a[i] == b[0];
      var j :| 0 <= j < |b| && b[j] == a[0];
      LessTrichotomous(a[0], b[0]);
      assert a[0] == b[0];
      TailLists(a, ks);
      TailLists(b, ks);
      ListsUnique(a[1..], b[1..], ks - {a[0]});
      assert a == [a[0]] + a[1..] && b == [b[0]] + b[1..];
    }
  }

  lemma TailLists(a: seq<string>, ks: set<string>)
    requires a != [] && Lists(a, ks)
    ensures Lists(a[1..], ks - {a[0]})
  {
    forall i | 1 <= i < |a|
      ensures a[i] != a[0]
    {
      LessTrichotomous(a[0], a[i]);
    }
    forall k | k in ks - {a[0]}
      ensures k in a[1..]
    {
      var i :| 0 <= i < |a| && a[i] == k;
      assert a[1..][i - 1] == k;
    }
  }

  lemma {:induction false} ListingExists(ks: set<string>) returns (keys: seq<string>)
    ensures Lists(keys, ks)
  {
    if ks == {} {
      keys := [];
    } else {
      var k := Least(ks);
      var rest := ListingExists(ks - {k});
      keys := [k] + rest;
      forall x | x in ks
        ensures x in keys
      {
        if x != k { assert x in rest; }
      }
    }
  }

  lemma {:induction false} Least(ks: set<string>) returns (k: string)
    requires ks != {}
    ensures k in ks && forall x :: x in ks && x != k ==> Less(k, x)
  {
    k :| k in ks;
    if ks != {k} {
      var r := Least(ks - {k});
      LessTrichotomous(k, r);
      if Less(r, k) {
        k := r;
      } else {
        forall x | x in ks && x != k && x != r
          ensures Less(k, x)
        {
          LessTransitive(k, r, x);
        }
      }
    }
  }

  ghost function SortedKeys(ks: set<string>): (keys: seq<string>)
    ensures Lists(keys, ks)
  {
    assert exists keys :: Lists(keys, ks) by {
      var keys := ListingExists(ks);
    }
    var keys :| Lists(keys, ks);
    keys
  }

  // ----- The canonical text -----

  ghost function Canon(printable: char -> bool, v: Json): string
    decreases v, 1, 0
  {
    match v
    case Null => "null"
    case Bool(b) => if b then "true" else "false"
    case Str(s) => Quote(printable, s)
    case Num(n) => FormatFloat(n)
    case Arr(items) => "[" + ItemsTail(printable, v, 0)
    case Obj(members) => "{" + MembersTail(printable, v, SortedKeys(members.Keys), 0)
  }

  function Comma(i: nat): string
  {
    if i > 0 then "," else ""
  }

  /** What follows the opening bracket once `i` items are written. */
  ghost function ItemsTail(printable: char -> bool, v: Json, i: nat): string
    requires v.Arr? && i <= |v.items|
    decreases v, 0, |v.items| - i
  {
    if i == |v.items| then "]"
    else Comma(i) + (Canon(printable, v.items[i]) + ItemsTail(printable, v, i + 1))
  }

  /** What follows the opening brace once `i` members are written. */
  ghost function MembersTail(printable: char -> bool, v: Json, keys: seq<string>, i: nat): string
    requires v.Obj? && i <= |keys| && forall k :: k in keys ==> k in v.members
    decreases v, 0, |keys| - i
  {
    if i == |keys| then "}"
    else
      Comma(i) + (Quote(printable, keys[i])
        + (":" + (Canon(printable, v.members[keys[i]]) + MembersTail(printable, v, keys, i + 1))))
  }

  // ----- Unique readability -----

  /** What can come right after a value inside an array, an object, or at the end of the text. */
  predicate Follows(t: string)
  {
    t == "" || t[0] == ',' || t[0] == ']' || t[0] == '}'
  }

  datatype Shape = NullShape | TrueShape | FalseShape | StrShape | NumShape | ArrShape | ObjShape

  function ShapeOf(v: Json): Shape
  {
    match v
    case Null => NullShape
    case Bool(b) => if b then TrueShape else FalseShape
    case Str(_) => StrShape
    case Num(_) => NumShape
    case Arr(_) => ArrShape
    case Obj(_) => ObjShape
  }

  function ShapeFromChar(c: char): Shape
  {
    if c == 'n' then NullShape
    else if c == 't' then TrueShape
    else if c == 'f' then FalseShape
    else if c == '"' then StrShape
    else if c == '[' then ArrShape
    else if c == '{' then ObjShape
    else NumShape
  }

  /** The first character of a value tells its shape, and never closes an array or object. */
  lemma CanonStart(printable: char -> bool, v: Json)
    ensures var c := Canon(printable, v);
      c != "" && ShapeFromChar(c[0]) == ShapeOf(v) && !Follows(c)
  {
    if v.Num? {
      FormatFloatIsNumeric(v.n);
      assert IS_NUMERIC(Canon(printable, v)[0]);
    }
  }

  lemma ItemsStart(printable: char -> bool, v: Json, i: nat, t: string)
    requires v.Arr? && i <= |v.items|
    ensures var text := ItemsTail(printable, v, i) + t;
      && text != ""
      && (text[0] == ']' <==> i == |v.items|)
      && (i > 0 ==> Follows(text))
  {
    if i < |v.items| {
      CanonStart(printable, v.items[i]);
    }
  }

  lemma MembersStart(printable: char -> bool, v: Json, keys: seq<string>, i: nat, t: string)
    requires v.Obj? && i <= |keys| && forall k :: k in keys ==> k in v.members
    ensures var text := MembersTail(printable, v, keys, i) + t;
      && text != ""
      && (text[0] == '}' <==> i == |keys|)
      && (i > 0 ==> Follows(text))
  {
    if i < |keys| {
      assert MembersTail(printable, v, keys, i)[0] == (Comma(i) + "\"")[0];
    }
  }

  /** A value can be read off the front of a text in one way only. */
  lemma {:induction false} Readable(printable: char -> bool, v: Json, w: Json, t: string, u: string)
    requires Follows(t) && Follows(u)
    requires Canon(printable, v) + t == Canon(printable, w) + u
    ensures v == w && t == u
    decreases v, 2, 0
  {
    CanonStart(printable, v);
    CanonStart(printable, w);
    assert (Canon(printable, v) + t)[0] == Canon(printable, v)[0];
    assert (Canon(printable, w) + u)[0] == Canon(printable, w)[0];
    assert ShapeOf(v) == ShapeOf(w);
    match v {
      case Null => CancelLeft("null", t, u);
      case Bool(b) => CancelLeft(if b then "true" else "false", t, u);
      case Str(s) => QuoteReadable(printable, s, t, w.s, u);
      case Num(n) =>
        FormatFloatIsNumeric(n);
        FormatFloatIsNumeric(w.n);
        MaximalMunch(IS_NUMERIC, FormatFloat(n), t, FormatFloat(w.n), u);
        FormatFloatInjective(n, w.n);
      case Arr(_) =>
        CancelOpening("[", ItemsTail(printable, v, 0), t, ItemsTail(printable, w, 0), u);
        ItemsReadable(printable, v, w, 0, t, u);
      case Obj(_) =>
        ObjReadable(printable, v, w, t, u);
    }
  }

  lemma CancelOpening(open: string, a: string, t: string, b: string, u: string)
    requires (open + a) + t == (open + b) + u
    ensures a + t == b + u
  {
    Assoc(open, a, t);
    Assoc(open, b, u);
    CancelLeft(open, a + t, b + u);
  }

  lemma {:induction false} ItemsReadable(printable: char -> bool, v: Json, w: Json, i: nat, t: string, u: string)
    requires v.Arr? && w.Arr? && i <= |v.items| && i <= |w.items|
    requires v.items[..i] == w.items[..i]
    requires ItemsTail(printable, v, i) + t == ItemsTail(printable, w, i) + u
    ensures v.items == w.items && t == u
    decreases v, 0, |v.items| - i
  {
    ItemsStart(printable, v, i, t);
    ItemsStart(printable, w, i, u);
    if i == |v.items| {
      CancelLeft("]", t, u);
    } else {
      var a, b := ItemsTail(printable, v, i + 1), ItemsTail(printable, w, i + 1);
      CancelOpening(Comma(i), Canon(printable, v.items[i]) + a, t, Canon(printable, w.items[i]) + b, u);
      Assoc(Canon(printable, v.items[i]), a, t);
      Assoc(Canon(printable, w.items[i]), b, u);
      ItemsStart(printable, v, i + 1, t);
      ItemsStart(printable, w, i + 1, u);
      Readable(printable, v.items[i], w.items[i], a + t, b + u);
      ItemsReadable(printable, v, w, i + 1, t, u);
    }
  }

  lemma {:induction false} ObjReadable(printable: char -> bool, v: Json, w: Json, t: string, u: string)
    requires v.Obj? && w.Obj?
    requires Canon(printable, v) + t == Canon(printable, w) + u
    ensures v == w && t == u
    decreases v, 1, 0
  {
    var ks, ls := SortedKeys(v.members.Keys), SortedKeys(w.members.Keys);
    CancelOpening("{", MembersTail(printable, v, ks, 0), t, MembersTail(printable, w, ls, 0), u);
    MembersReadable(printable, v, w, ks, ls, 0, t, u);
    assert v.members.Keys == w.members.Keys;
    forall k | k in v.members
      ensures v.members[k] == w.members[k]
    {
      assert k in ks;
    }
    assert v.members == w.members;
  }

  /** A key and its colon, cut off the front of a member. */
  lemma KeyReadable(printable: char -> bool, k: string, x: string, t: string, l: string, y: string, u: string)
    requires (Quote(printable, k) + (":" + x)) + t == (Quote(printable, l) + (":" + y)) + u
    ensures k == l && x + t == y + u
  {
    Assoc(Quote(printable, k), ":" + x, t);
    Assoc(Quote(printable, l), ":" + y, u);
    QuoteReadable(printable, k, (":" + x) + t, l, (":" + y) + u);
    CancelOpening(":", x, t, y, u);
  }

  lemma {:induction false} MembersReadable(printable: char -> bool, v: Json, w: Json, ks: seq<string>, ls: seq<string>,
                                           i: nat, t: string, u: string)
    requires v.Obj? && w.Obj? && i <= |ks| && i <= |ls| && ks[..i] == ls[..i]
    requires forall k :: k in ks ==> k in v.members
    requires forall k :: k in ls ==> k in w.members
    requires MembersTail(printable, v, ks, i) + t == MembersTail(printable, w, ls, i) + u
    ensures ks == ls && t == u
    ensures forall j :: i <= j < |ks| ==> v.members[ks[j]] == w.members[ls[j]]
    decreases v, 0, |ks| - i
  {
    MembersStart(printable, v, ks, i, t);
    MembersStart(printable, w, ls, i, u);
    if i == |ks| {
      CancelLeft("}", t, u);
    } else {
      var a, b := MembersTail(printable, v, ks, i + 1), MembersTail(printable, w, ls, i + 1);
      var c, d := Canon(printable, v.members[ks[i]]), Canon(printable, w.members[ls[i]]);
      CancelOpening(Comma(i), Quote(printable, ks[i]) + (":" + (c + a)), t,
                    Quote(printable, ls[i]) + (":" + (d + b)), u);
      KeyReadable(printable, ks[i], c + a, t, ls[i], d + b, u);
      Assoc(c, a, t);
      Assoc(d, b, u);
      MembersStart(printable, v, ks, i + 1, t);
      MembersStart(printable, w, ls, i + 1, u);
      Readable(printable, v.members[ks[i]], w.members[ls[i]], a + t, b + u);
      MembersReadable(printable, v, w, ks, ls, i + 1, t, u);
    }
  }

  /** The canonical text decides equality of JSON values. */
  lemma CanonDecidesEquality(printable: char -> bool, v: Json, w: Json)
    ensures Canon(printable, v) == Canon(printable, w) <==> v == w
  {
    if Canon(printable, v) == Canon(printable, w) {
      Readable(printable, v, w, "", "");
    }
  }

  lemma ScalarTexts(printable: char -> bool)
    ensures Canon(printable, Null) == "null"
    ensures Canon(printable, Bool(true)) == "true" && Canon(printable, Bool(false)) == "false"
    ensures Canon(printable, Num(Decimal(true, "1", "5"))) == "-1.5"
    ensures !printable('\n') ==> Canon(printable, Str("\n")) == "\"\\n\""
  {
    assert "\n"[1..] == "";
  }

  /** Escapes as Go writes them, but for those with hexadecimal digits, which `HexReadsBack` tells. */
  lemma EscapeExamples(printable: char -> bool)
    requires forall c :: printable(c) <==> ' ' <= c <= '~'
    ensures EscapeRune(printable, 'a') == "a" && EscapeRune(printable, '"') == ['\\', '"']
    ensures EscapeRune(printable, '\\') == ['\\', '\\'] && EscapeRune(printable, '\t') == ['\\', 't']
    ensures EscapeRune(printable, '\n') == ['\\', 'n'] && EscapeRune(printable, '\r') == ['\\', 'r']
    ensures forall c :: c < '\U{07}' ==> EscapeRune(printable, c) == ['\\', 'x'] + Hex(c as nat, 2)
    ensures forall c :: '\U{80}' <= c && c as nat < 0x1_0000 ==>
      EscapeRune(printable, c) == ['\\', 'u'] + Hex(c as nat, 4)
  {
  }

  /** Two items, between brackets. */
  lemma PairText(printable: char -> bool, v: Json, w: Json)
    ensures Canon(printable, Arr([v, w])) == "[" + (Canon(printable, v) + ("," + (Canon(printable, w) + "]")))
  {
    var a := Arr([v, w]);
    assert ItemsTail(printable, a, 2) == "]";
    assert ItemsTail(printable, a, 1) == "," + (Canon(printable, w) + "]");
    assert "" + (Canon(printable, v) + ItemsTail(printable, a, 1)) == Canon(printable, v) + ItemsTail(printable, a, 1);
  }

  /** The key that precedes the other is written first, whatever order the map was built in. */
  lemma TwoMembersText(printable: char -> bool, k: string, v: Json, l: string, w: Json)
    requires Precedes(k, l)
    ensures Canon(printable, Obj(map[l := w, k := v]))
         == "{" + (Quote(printable, k) + (":" + (Canon(printable, v)
              + ("," + (Quote(printable, l) + (":" + (Canon(printable, w) + "}")))))))
  {
    LessMeaning(k, l);
    LessTrichotomous(k, l);
    var o := Obj(map[l := w, k := v]);
    ListsUnique(SortedKeys(o.members.Keys), [k, l], o.members.Keys);
    assert MembersTail(printable, o, [k, l], 2) == "}";
    var tail := "," + (Quote(printable, l) + (":" + (Canon(printable, w) + "}")));
    assert MembersTail(printable, o, [k, l], 1) == tail;
    var all := Quote(printable, k) + (":" + (Canon(printable, v) + tail));
    assert "" + all == all;
  }

  // ----- Zeros -----

  // Go compares 0 and -0 as equal, but writes them differently.

  predicate IsZero(n: Decimal)
  {
    n.whole == "0" && n.fraction == ""
  }

  /** Equality of values as Go has it. */
  predicate SameValue(v: Json, w: Json)
  {
    match v
    case Num(n) => w.Num? && (n == w.n || (IsZero(n) && IsZero(w.n)))
    case Arr(items) =>
      w.Arr? && |items| == |w.items| && forall i :: 0 <= i < |items| ==> SameValue(items[i], w.items[i])
    case Obj(members) =>
      w.Obj? && members.Keys == w.members.Keys && forall k :: k in members ==> SameValue(members[k], w.members[k])
    case _ => v == w
  }

  datatype Step = At(index: nat) | Of(key: string)

  /** A negative zero stands in `v` at the end of `path`. */
  predicate NegativeZeroAt(v: Json, path: seq<Step>)
  {
    if path == [] then v.Num? && IsZero(v.n) && v.n.negative
    else
      match path[0]
      case At(i) => v.Arr? && i < |v.items| && NegativeZeroAt(v.items[i], path[1..])
      case Of(k) => v.Obj? && k in v.members && NegativeZeroAt(v.members[k], path[1..])
  }

  ghost predicate SameZeros(v: Json, w: Json)
  {
    forall path :: NegativeZeroAt(v, path) <==> NegativeZeroAt(w, path)
  }

  lemma StepInto(v: Json, w: Json, step: Step, x: Json, y: Json)
    requires SameZeros(v, w)
    requires forall path :: NegativeZeroAt(v, [step] + path) <==> NegativeZeroAt(x, path)
    requires forall path :: NegativeZeroAt(w, [step] + path) <==> NegativeZeroAt(y, path)
    ensures SameZeros(x, y)
  {
    forall path
      ensures NegativeZeroAt(x, path) <==> NegativeZeroAt(y, path)
    {
      assert NegativeZeroAt(v, [step] + path) <==> NegativeZeroAt(w, [step] + path);
    }
  }

  lemma ItemZeros(v: Json, i: nat)
    requires v.Arr? && i < |v.items|
    ensures forall path :: NegativeZeroAt(v, [At(i)] + path) <==> NegativeZeroAt(v.items[i], path)
  {
    forall path
      ensures NegativeZeroAt(v, [At(i)] + path) <==> NegativeZeroAt(v.items[i], path)
    {
      assert ([At(i)] + path)[1..] == path;
    }
  }

  lemma MemberZeros(v: Json, k: string)
    requires v.Obj? && k in v.members
    ensures forall path :: NegativeZeroAt(v, [Of(k)] + path) <==> NegativeZeroAt(v.members[k], path)
  {
    forall path
      ensures NegativeZeroAt(v, [Of(k)] + path) <==> NegativeZeroAt(v.members[k], path)
    {
      assert ([Of(k)] + path)[1..] == path;
    }
  }

  /** Values that Go takes for equal differ at most in the signs of their zeros. */
  lemma {:induction false} ZerosDecide(v: Json, w: Json)
    requires SameValue(v, w) && SameZeros(v, w)
    ensures v == w
  {
    match v {
      case Num(n) =>
        assert NegativeZeroAt(v, []) <==> NegativeZeroAt(w, []);
      case Arr(items) =>
        forall i | 0 <= i < |items|
          ensures items[i] == w.items[i]
        {
          ItemZeros(v, i);
          ItemZeros(w, i);
          StepInto(v, w, At(i), items[i], w.items[i]);
          ZerosDecide(items[i], w.items[i]);
        }
        assert items == w.items;
      case Obj(members) =>
        forall k | k in members
          ensures members[k] == w.members[k]
        {
          MemberZeros(v, k);
          MemberZeros(w, k);
          StepInto(v, w, Of(k), members[k], w.members[k]);
          ZerosDecide(members[k], w.members[k]);
        }
        assert members == w.members;
      case _ =>
    }
  }

  lemma {:induction false} EqualIsSame(v: Json)
    ensures SameValue(v, v)
  {
    match v {
      case Arr(items) =>
        forall i | 0 <= i < |items|
          ensures SameValue(items[i], items[i])
        {
          EqualIsSame(items[i]);
        }
      case Obj(members) =>
        forall k | k in members
          ensures SameValue(members[k], members[k])
        {
          EqualIsSame(members[k]);
        }
      case _ =>
    }
  }

  /** With equality as Go has it: values with the same text are equal, and equal values have the same
      text exactly when their negative zeros stand in the same places. */
  lemma TextDecidesUpToZeros(printable: char -> bool, v: Json, w: Json)
    ensures Canon(printable, v) == Canon(printable, w) ==> SameValue(v, w)
    ensures SameValue(v, w) ==> (Canon(printable, v) == Canon(printable, w) <==> SameZeros(v, w))
  {
    CanonDecidesEquality(printable, v, w);
    EqualIsSame(v);
    if SameValue(v, w) && SameZeros(v, w) {
      ZerosDecide(v, w);
    }
  }

  // ----- Writing the text -----

  class StringBuilder {
    var text: string

    constructor ()
      ensures text == ""
    {
      text := "";
    }

    method WriteString(s: string)
      modifies this
      ensures text == old(text) + s
    {
      text := text + s;
    }
  }

  /** Insertion sort by adjacent swaps. */
  method SortStrings(values: array<string>)
    modifies values
    ensures Sorted(values[..]) && InOrder(values[..])
    ensures multiset(values[..]) == multiset(old(values[..]))
  {
    if values.Length == 0 { return; }
    for i := 1 to values.Length
      invariant forall a, b :: 0 <= a < b < i ==> AtMost(values[a], values[b])
      invariant multiset(values[..]) == multiset(old(values[..]))
    {
      var j := i;
      while j > 0 && Less(values[j], values[j - 1])
        invariant 0 <= j <= i
        invariant forall a, b :: 0 <= a < b <= i && b != j ==> AtMost(values[a], values[b])
        invariant multiset(values[..]) == multiset(old(values[..]))
      {
        LessTrichotomous(values[j], values[j - 1]);
        values[j - 1], values[j] := values[j], values[j - 1];
        j := j - 1;
      }
      forall a | 0 <= a < j
        ensures AtMost(values[a], values[j])
      {
        if a < j - 1 {
          AtMostTransitive(values[a], values[j - 1], values[j]);
        }
      }
    }
    SortedIsInOrder(values[..]);
  }

  /** A sorted list without repetitions is the listing of its set, however it was produced. */
  lemma SortedIsListing(keys: seq<string>, ks: set<string>)
    requires Sorted(keys) && multiset(keys) == multiset(ks)
    ensures keys == SortedKeys(ks)
  {
    forall i, j | 0 <= i < j < |keys|
      ensures Less(keys[i], keys[j])
    {
      LessTrichotomous(keys[i], keys[j]);
      assert keys == keys[..j] + [keys[j]] + keys[j + 1..];
      assert keys[i] in keys[..j];
      assert multiset(keys)[keys[j]] <= 1;
    }
    forall k
      ensures k in keys <==> k in ks
    {
      assert k in keys <==> k in multiset(keys);
    }
    ListsUnique(keys, SortedKeys(ks), ks);
  }

  /** `make` and the loop over the map. The loop meets the keys in an order that is not fixed. */
  method KeysOf(members: map<string, Json>) returns (keys: array<string>)
    ensures fresh(keys)
    ensures multiset(keys[..]) == multiset(members.Keys)
  {
    var listed: seq<string>, left := [], members.Keys;
    ghost var done: set<string> := {};
    while left != {}
      invariant done !! left && done + left == members.Keys
      invariant multiset(listed) == multiset(done)
      decreases left
    {
      var k :| k in left;
      ListedOne(listed, done, k);
      listed := listed + [k];
      left, done := left - {k}, done + {k};
    }
    keys := new string[|listed|](i requires 0 <= i < |listed| => listed[i]);
    assert keys[..] == listed && done == members.Keys;
  }

  lemma ListedOne(listed: seq<string>, done: set<string>, k: string)
    requires multiset(listed) == multiset(done) && k !in done
    ensures multiset(listed + [k]) == multiset(done + {k})
  {
  }

  method WriteCanonicalJSONValue(printable: char -> bool, b: StringBuilder, v: Json)
    modifies b
    ensures b.text == old(b.text) + Canon(printable, v)
    decreases v, 1
  {
    match v {
      case Null =>
        b.WriteString("null");
      case Bool(x) =>
        if x {
          b.WriteString("true");
        } else {
          b.WriteString("false");
        }
      case Str(s) =>
        b.WriteString(Quote(printable, s));
      case Num(n) =>
        b.WriteString(FormatFloat(n));
      case Arr(_) =>
        WriteItems(printable, b, v);
      case Obj(_) =>
        WriteMembers(printable, b, v);
    }
  }

  method WriteItems(printable: char -> bool, b: StringBuilder, v: Json)
    requires v.Arr?
    modifies b
    ensures b.text == old(b.text) + Canon(printable, v)
    decreases v, 0
  {
    b.WriteString("[");
    Assoc(old(b.text), "[", ItemsTail(printable, v, 0));
    for i := 0 to |v.items|
      invariant b.text + ItemsTail(printable, v, i) == old(b.text) + Canon(printable, v)
    {
      Regroup(b.text, Comma(i), Canon(printable, v.items[i]), ItemsTail(printable, v, i + 1));
      if i > 0 {
        b.WriteString(",");
      }
      WriteCanonicalJSONValue(printable, b, v.items[i]);
    }
    b.WriteString("]");
  }

  method WriteMembers(printable: char -> bool, b: StringBuilder, v: Json)
    requires v.Obj?
    modifies b
    ensures b.text == old(b.text) + Canon(printable, v)
    decreases v, 0
  {
    var keys := KeysOf(v.members);
    SortStrings(keys);
    ghost var ks := SortedKeys(v.members.Keys);
    SortedIsListing(keys[..], v.members.Keys);
    b.WriteString("{");
    Assoc(old(b.text), "{", MembersTail(printable, v, ks, 0));
    for i := 0 to keys.Length
      invariant keys[..] == ks
      invariant b.text + MembersTail(printable, v, ks, i) == old(b.text) + Canon(printable, v)
    {
      var k := keys[i];
      assert k == ks[i];
      ghost var c, tail := Canon(printable, v.members[k]), MembersTail(printable, v, ks, i + 1);
      Regroup(b.text, Comma(i), Quote(printable, k), ":" + (c + tail));
      if i > 0 {
        b.WriteString(",");
      }
      b.WriteString(Quote(printable, k));
      Regroup(b.text, ":", c, tail);
      b.WriteString(":");
      WriteCanonicalJSONValue(printable, b, v.members[k]);
    }
    b.WriteString("}");
  }

  lemma Regroup(text: string, a: string, b: string, rest: string)
    ensures text + (a + (b + rest)) == (text + a + b) + rest
    ensures a == "" ==> text + a == text
  {
  }

  // ----- Weak ETags -----

  type Byte = n: nat | n < 256

  /** `hex.EncodeToString`. */
  function HexBytes(bytes: seq<Byte>): string
  {
    if bytes == [] then "" else Hex(bytes[0], 2) + HexBytes(bytes[1..])
  }

  lemma {:induction false} HexBytesInjective(a: seq<Byte>, b: seq<Byte>)
    requires HexBytes(a) == HexBytes(b)
    ensures a == b
  {
    if a != [] && b != [] {
      assert Hex(a[0], 2) == HexBytes(a)[..2] && Hex(b[0], 2) == HexBytes(b)[..2];
      assert Pow16(2) == 256;
      HexInjective(a[0], b[0], 2);
      CancelLeft(Hex(a[0], 2), HexBytes(a[1..]), HexBytes(b[1..]));
      HexBytesInjective(a[1..], b[1..]);
      assert a == [a[0]] + a[1..] && b == [b[0]] + b[1..];
    }
  }

  function ETagOfText(digest: string -> seq<Byte>, text: string): string
  {
    "W/\"" + (HexBytes(digest(text)) + "\"")
  }

  ghost function ETag(printable: char -> bool, digest: string -> seq<Byte>, v: Json): string
  {
    ETagOfText(digest, Canon(printable, v))
  }

  ghost predicate Injective(digest: string -> seq<Byte>)
  {
    forall a, b :: digest(a) == digest(b) ==> a == b
  }

  /** A weak tag of lower-case hexadecimal digits, two for each byte. */
  lemma ETagExample(digest: string -> seq<Byte>, text: string)
    requires digest(text) == [0x0a]
    ensures ETagOfText(digest, text) == "W/\"0a\""
  {
    var bytes := [0x0a];
    assert bytes[1..] == [];
    assert Hex(0x0a, 1) == "a" && Hex(0x0a, 2) == "0a";
    assert HexBytes(bytes) == "0a";
  }

  /** The tag that goes with a payload which decodes to `generic`. `digest` stands for SHA-256. */
  method BuildWeakETag(printable: char -> bool, digest: string -> seq<Byte>, generic: Json) returns (etag: string)
    ensures etag == ETag(printable, digest, generic)
  {
    var canonical := new StringBuilder();
    WriteCanonicalJSONValue(printable, canonical, generic);
    assert "" + Canon(printable, generic) == Canon(printable, generic);
    etag := ETagOfText(digest, canonical.text);
  }

  lemma ETagDecidesEquality(printable: char -> bool, digest: string -> seq<Byte>, v: Json, w: Json)
    requires Injective(digest)
    ensures ETag(printable, digest, v) == ETag(printable, digest, w) <==> v == w
  {
    if ETag(printable, digest, v) == ETag(printable, digest, w) {
      var a, b := HexBytes(digest(Canon(printable, v))), HexBytes(digest(Canon(printable, w)));
      CancelLeft("W/\"", a + "\"", b + "\"");
      assert a == (a + "\"")[..|a|] && b == (b + "\"")[..|b|];
      HexBytesInjective(digest(Canon(printable, v)), digest(Canon(printable, w)));
      CanonDecidesEquality(printable, v, w);
    }
  }

  // ----- If-None-Match -----

  ghost predicate AnyMatches(pieces: seq<string>, etag: string)
  {
    exists c :: c in pieces && (Trim(c, IsSpace) == "*" || Trim(c, IsSpace) == etag)
  }

  ghost predicate Satisfied(header: string, etag: string)
  {
    header != "" && AnyMatches(Split(header, ','), etag)
  }

  method IfNoneMatchSatisfied(header: string, etag: string) returns (satisfied: bool)
    ensures satisfied <==> Satisfied(header, etag)
    ensures satisfied <==>
      header != "" && exists c :: c in Split(header, ',') && (Trim(c, IsSpace) == "*" || Trim(c, IsSpace) == etag)
  {
    if header == "" {
      return false;
    }
    var candidates := Split(header, ',');
    for i := 0 to |candidates|
      invariant forall j :: 0 <= j < i ==> Trim(candidates[j], IsSpace) != "*" && Trim(candidates[j], IsSpace) != etag
    {
      var tag := Trim(candidates[i], IsSpace);
      if tag == "*" || tag == etag {
        assert candidates[i] in Split(header, ',');
        return true;
      }
    }
    return false;
  }

  /** The header of a client that holds the given tags. */
  function TagList(tags: seq<string>): string
    requires tags != []
  {
    if |tags| == 1 then tags[0] else tags[0] + ("," + (" " + TagList(tags[1..])))
  }

  /** An entity tag as it may stand in a list: no comma, and no white space at either end. */
  ghost predicate Listable(tag: string)
  {
    tag != "" && Without(tag, ',') && !IsSpace(tag[0]) && !IsSpace(tag[|tag| - 1])
  }

  lemma TrimListable(tag: string)
    requires Listable(tag)
    ensures Trim(tag, IsSpace) == tag && Trim(" " + tag, IsSpace) == tag
  {
    assert (" " + tag)[1..] == tag;
    assert TrimLeft(" " + tag, IsSpace) == TrimLeft(tag, IsSpace);
  }

  /** The pieces of a tag list, each with the white space before it. */
  function Pieces(tags: seq<string>, pad: string): (pieces: seq<string>)
    requires tags != []
  {
    if |tags| == 1 then [pad + tags[0]] else [pad + tags[0]] + Pieces(tags[1..], " ")
  }

  lemma {:induction false} SplitTagList(tags: seq<string>, pad: string)
    requires tags != [] && Without(pad, ',') && forall i :: 0 <= i < |tags| ==> Without(tags[i], ',')
    ensures Split(pad + TagList(tags), ',') == Pieces(tags, pad)
  {
    var head := pad + tags[0];
    assert Without(head, ',');
    if |tags| == 1 {
      SplitAt(head, ',', "");
    } else {
      var rest := " " + TagList(tags[1..]);
      SplitTagList(tags[1..], " ");
      SplitAt(head, ',', rest);
      Assoc(pad, tags[0], "," + rest);
    }
  }

  lemma {:induction false} TrimPieces(tags: seq<string>, pad: string)
    requires tags != [] && pad in {"", " "} && forall i :: 0 <= i < |tags| ==> Listable(tags[i])
    ensures |Pieces(tags, pad)| == |tags|
    ensures forall i :: 0 <= i < |tags| ==> Trim(Pieces(tags, pad)[i], IsSpace) == tags[i]
  {
    TrimListable(tags[0]);
    assert "" + tags[0] == tags[0];
    if |tags| > 1 {
      TrimPieces(tags[1..], " ");
    }
  }

  lemma {:induction false} HexBytesListable(bytes: seq<Byte>)
    ensures Without(HexBytes(bytes), ',')
  {
    if bytes != [] {
      HexBytesListable(bytes[1..]);
      assert Hex(bytes[0], 2)
          == (Hex(bytes[0] / 16 / 16, 0) + [HexDigit(bytes[0] / 16 % 16)]) + [HexDigit(bytes[0] % 16)];
    }
  }

  lemma ETagListable(printable: char -> bool, digest: string -> seq<Byte>, v: Json)
    ensures var etag := ETag(printable, digest, v);
      Listable(etag) && etag != "*"
  {
    HexBytesListable(digest(Canon(printable, v)));
  }

  lemma MatchPieces(pieces: seq<string>, tags: seq<string>, etag: string)
    requires |pieces| == |tags|
    requires forall i :: 0 <= i < |tags| ==> Trim(pieces[i], IsSpace) == tags[i] && tags[i] != "*"
    ensures AnyMatches(pieces, etag) <==> etag in tags
  {
    if i :| 0 <= i < |tags| && tags[i] == etag {
      assert pieces[i] in pieces;
    }
  }

  lemma TagListSatisfied(tags: seq<string>, etag: string)
    requires tags != [] && forall i :: 0 <= i < |tags| ==> Listable(tags[i]) && tags[i] != "*"
    ensures Satisfied(TagList(tags), etag) <==> etag in tags
  {
    SplitTagList(tags, "");
    assert "" + TagList(tags) == TagList(tags);
    TrimPieces(tags, "");
    MatchPieces(Pieces(tags, ""), tags, etag);
    assert Listable(tags[0]);
  }

  /** A client that sends back the tags of the values it holds is told "not modified" exactly
      when the current value is one of them. */
  lemma NotModifiedExactlyWhenHeld(printable: char -> bool, digest: string -> seq<Byte>,
                                   held: seq<Json>, tags: seq<string>, current: Json)
    requires Injective(digest) && held != []
    requires |tags| == |held| && forall i :: 0 <= i < |held| ==> tags[i] == ETag(printable, digest, held[i])
    ensures Satisfied(TagList(tags), ETag(printable, digest, current)) <==> current in held
  {
    forall i | 0 <= i < |held|
      ensures Listable(tags[i]) && tags[i] != "*"
      ensures tags[i] == ETag(printable, digest, current) <==> held[i] == current
    {
      ETagListable(printable, digest, held[i]);
      ETagDecidesEquality(printable, digest, held[i], current);
    }
    TagListSatisfied(tags, ETag(printable, digest, current));
  }
}
