/** Numeric ids for transactions, made up from a hash when there is no number
    (normalizeTransactionID and stableStringHash in frontend/src/Classes/job.js). */
module TransactionIds {
  import opened Arithmetic
  import opened Seqs
  import opened Text
  import opened Unicode

  // ----- FNV-1a with 32 bits -----

  const MODULUS := 0x1_0000_0000

  type Word = n: nat | n < 0x1_0000_0000
  type Unit = u: nat | u < 0x1_0000

  const OFFSET: Word := 0x811c9dc5
  const PRIME: Word := 0x0100_0193
  const PRIME_INVERSE: Word := 0x359c_449b

  /** The exclusive or of the lowest `bits` bits. */
  function Xor(a: nat, b: nat, bits: nat): (x: nat)
    ensures x < Pow2(bits)
  {
    if bits == 0 then 0 else 2 * Xor(a / 2, b / 2, bits - 1) + (a + b) % 2
  }

  function Xor32(a: Word, b: Word): Word
  {
    Pow2Of32();
    Xor(a, b, 32)
  }

  /** `Math.imul`, as an unsigned number. */
  function Imul(a: Word, b: Word): Word
  {
    a * b % MODULUS
  }

  function Mix(hash: Word, unit: Unit): Word
  {
    Imul(Xor32(hash, unit), PRIME)
  }

  function State(hash: Word, text: seq<Unit>): Word
    decreases |text|
  {
    if text == [] then hash else State(Mix(hash, text[0]), text[1..])
  }

  /** Positive and not zero. */
  function Adjust(hash: Word): (n: nat)
    ensures 1 <= n < MODULUS
  {
    if hash == 0 then 1 else hash
  }

  method StableStringHash(text: seq<Unit>) returns (n: nat)
    ensures n == Adjust(State(OFFSET, text))
  {
    var hash := OFFSET;
    assert text[0..] == text;
    for i := 0 to |text|
      invariant State(hash, text[i..]) == State(OFFSET, text)
    {
      assert text[i..][1..] == text[i + 1..];
      hash := Xor32(hash, text[i]);
      hash := Imul(hash, PRIME);
    }
    var normalized := hash;
    n := if normalized == 0 then 1 else normalized;
  }

  function Bit(x: nat, i: nat): nat
  {
    if i == 0 then x % 2 else Bit(x / 2, i - 1)
  }

  lemma Halves(x: nat, r: nat)
    requires r < 2
    ensures (2 * x + r) / 2 == x && (2 * x + r) % 2 == r
  {
  }

  /** Each bit of the exclusive or is the sum, without a carry, of the two bits in its place. */
  lemma {:induction false} XorBit(a: nat, b: nat, bits: nat, i: nat)
    requires i < bits
    ensures Bit(Xor(a, b, bits), i) == (Bit(a, i) + Bit(b, i)) % 2
  {
    var x := Xor(a / 2, b / 2, bits - 1);
    Halves(x, (a + b) % 2);
    if i > 0 {
      XorBit(a / 2, b / 2, bits - 1, i - 1);
    }
  }

  lemma {:induction false} XorZero(a: nat, bits: nat)
    requires a < Pow2(bits)
    ensures Xor(a, 0, bits) == a
  {
    if bits > 0 {
      XorZero(a / 2, bits - 1);
    }
  }

  /** Test vectors of FNV-1a with 32 bits: the empty text, and the one character NUL. */
  lemma TestVectors(hash: Word, unit: Unit)
    requires hash == OFFSET && unit == 0
    ensures Adjust(State(hash, [])) == 0x811c_9dc5 && Adjust(State(hash, [unit])) == 0x050c_5d1f
  {
    Pow2Of32();
    XorZero(hash, 32);
    StateOfOne(hash, unit, hash);
  }

  lemma StateOfOne(h: Word, u: Unit, x: Word)
    requires Xor(h, u, 32) == x
    ensures State(h, [u]) == x * PRIME % MODULUS
  {
    assert [u][1..] == [];
    assert State(h, [u]) == Mix(h, u);
  }

  lemma LowBits(x: nat, y: nat, a: nat, b: nat, c: nat)
    requires 2 * x + (a + c) % 2 == 2 * y + (b + c) % 2
    ensures x == y && a % 2 == b % 2
  {
  }

  lemma {:induction false} XorInjective(a: nat, b: nat, c: nat, bits: nat)
    requires a < Pow2(bits) && b < Pow2(bits) && Xor(a, c, bits) == Xor(b, c, bits)
    ensures a == b
  {
    if bits > 0 {
      var x, y := Xor(a / 2, c / 2, bits - 1), Xor(b / 2, c / 2, bits - 1);
      LowBits(x, y, a, b, c);
      XorInjective(a / 2, b / 2, c / 2, bits - 1);
    }
  }

  lemma {:induction false} XorCommutes(a: nat, b: nat, bits: nat)
    ensures Xor(a, b, bits) == Xor(b, a, bits)
  {
    if bits > 0 {
      XorCommutes(a / 2, b / 2, bits - 1);
    }
  }

  lemma Pow2Of32()
    ensures Pow2(32) == MODULUS
  {
    assert Pow2(8) == 256 && Pow2(16) == 65536 && Pow2(24) == 0x100_0000;
  }

  /** Multiplication by the prime loses nothing: the prime has an inverse. */
  lemma PrimeIsInvertible(a: Word, b: Word)
    requires Imul(a, PRIME) == Imul(b, PRIME)
    ensures a == b
  {
    var k := a * PRIME / MODULUS - b * PRIME / MODULUS;
    assert (a - b) * PRIME == k * MODULUS;
    var q := PRIME * PRIME_INVERSE / MODULUS;
    assert PRIME * PRIME_INVERSE == q * MODULUS + 1;
    assert (a - b) * (q * MODULUS + 1) == k * MODULUS * PRIME_INVERSE;
    assert a - b == MODULUS * (k * PRIME_INVERSE - (a - b) * q);
  }

  lemma {:induction false} StateInjective(h: Word, g: Word, text: seq<Unit>)
    requires State(h, text) == State(g, text)
    ensures h == g
    decreases |text|
  {
    if text != [] {
      StateInjective(Mix(h, text[0]), Mix(g, text[0]), text[1..]);
      PrimeIsInvertible(Xor32(h, text[0]), Xor32(g, text[0]));
      Pow2Of32();
      XorInjective(h, g, text[0], 32);
    }
  }

  lemma {:induction false} StateAppend(h: Word, a: seq<Unit>, b: seq<Unit>)
    ensures State(h, a + b) == State(State(h, a), b)
    decreases |a|
  {
    if a == [] {
      assert a + b == b;
    } else {
      assert (a + b)[1..] == a[1..] + b;
      StateAppend(Mix(h, a[0]), a[1..], b);
    }
  }

  lemma MixInjective(h: Word, u: Unit, v: Unit)
    requires Mix(h, u) == Mix(h, v)
    ensures u == v
  {
    PrimeIsInvertible(Xor32(h, u), Xor32(h, v));
    XorCommutes(h, u, 32);
    XorCommutes(h, v, 32);
    Pow2Of32();
    XorInjective(u, v, h, 32);
  }

  lemma StateSplit(before: seq<Unit>, u: Unit, after: seq<Unit>)
    ensures State(OFFSET, before + [u] + after) == State(Mix(State(OFFSET, before), u), after)
  {
    StateAppend(OFFSET, before + [u], after);
    StateAppend(OFFSET, before, [u]);
    var h := State(OFFSET, before);
    assert State(h, [u]) == State(Mix(h, u), []);
  }

  /** Two texts that differ in exactly one code unit never have the same state. */
  lemma OneUnitChangesState(before: seq<Unit>, u: Unit, v: Unit, after: seq<Unit>)
    requires u != v
    ensures State(OFFSET, before + [u] + after) != State(OFFSET, before + [v] + after)
  {
    StateSplit(before, u, after);
    StateSplit(before, v, after);
    var h := State(OFFSET, before);
    if State(Mix(h, u), after) == State(Mix(h, v), after) {
      StateInjective(Mix(h, u), Mix(h, v), after);
      MixInjective(h, u, v);
    }
  }

  /** Such texts have the same hash exactly when their states are 0 and 1. */
  lemma OneUnitCollision(before: seq<Unit>, u: Unit, v: Unit, after: seq<Unit>)
    requires u != v
    ensures var x, y := State(OFFSET, before + [u] + after), State(OFFSET, before + [v] + after);
      Adjust(x) == Adjust(y) <==> (x == 0 && y == 1) || (x == 1 && y == 0)
  {
    OneUnitChangesState(before, u, v, after);
  }

  // ----- Ids -----

  /** A value as it comes from the API or from storage. */
  datatype Raw =
    | Number(x: real)
    | NotFinite
    | Str(s: string)
    | Other

  function Trunc(x: real): int
  {
    if x >= 0.0 then x.Floor else -(-x).Floor
  }

  /** The UTF-16 code units of a text. */
  function Units(s: string): seq<Unit>
  {
    if s == "" then []
    else
      var r := s[0] as int;
      (if r < 0x1_0000 then [r]
       else [0xD800 + (r - 0x1_0000) / 0x400, 0xDC00 + (r - 0x1_0000) % 0x400]) + Units(s[1..])
  }

  /** A character outside the basic plane takes a high and a low surrogate, which hold its bits. */
  lemma UnitsOfOne(c: char)
    ensures c as int < 0x1_0000 ==> Units([c]) == [c as int]
    ensures c as int >= 0x1_0000 ==>
      && |Units([c])| == 2
      && var high, low := Units([c])[0] as int, Units([c])[1] as int;
         && 0xD800 <= high < 0xDC00 && 0xDC00 <= low < 0xE000
         && c as int == 0x1_0000 + (high - 0xD800) * 0x400 + (low - 0xDC00)
  {
    assert [c][1..] == [];
  }

  lemma {:induction false} UnitsAppend(a: string, b: string)
    ensures Units(a + b) == Units(a) + Units(b)
  {
    if a == "" {
      assert a + b == b;
    } else {
      assert (a + b)[1..] == a[1..] + b;
      UnitsAppend(a[1..], b);
    }
  }

  /** `parse` stands for `Number(...)`, where that is finite. */
  function NormalizeTransactionID(parse: string -> Option<real>, value: Raw): int
  {
    match value
    case Number(x) => Trunc(x)
    case Str(s) =>
      var trimmed := Trim(s, IsJsSpace);
      if trimmed == "" then 0
      else
        var parsed := parse(trimmed);
        if parsed.Some? then Trunc(parsed.value)
        else
          var hash: int := Adjust(State(OFFSET, Units(trimmed)));
          -hash
    case _ => 0
  }

  /** Truncation goes to the next whole number towards 0. */
  lemma TruncMeaning(x: real)
    ensures x >= 0.0 ==> 0.0 <= Trunc(x) as real <= x < (Trunc(x) + 1) as real
    ensures x <= 0.0 ==> (Trunc(x) - 1) as real < x <= Trunc(x) as real <= 0.0
  {
  }

  /** A finite number, given or read from text, is truncated; whatever is blank, not finite or neither
      number nor text gets 0. */
  lemma NumbersAreTruncated(parse: string -> Option<real>, x: real, s: string)
    ensures NormalizeTransactionID(parse, Number(x)) == Trunc(x)
    ensures Trim(s, IsJsSpace) != "" && parse(Trim(s, IsJsSpace)) == Some(x) ==>
      NormalizeTransactionID(parse, Str(s)) == Trunc(x)
    ensures Trim(s, IsJsSpace) == "" ==> NormalizeTransactionID(parse, Str(s)) == 0
    ensures NormalizeTransactionID(parse, NotFinite) == 0 && NormalizeTransactionID(parse, Other) == 0
  {
  }

  lemma NormalizingTwice(parse: string -> Option<real>, value: Raw)
    ensures var id := NormalizeTransactionID(parse, value);
      NormalizeTransactionID(parse, Number(id as real)) == id
  {
  }

  /** An id that is made up from text is negative and fits 33 bits; any other is the number's own. */
  lemma HashedIdsAreNegative(parse: string -> Option<real>, s: string)
    requires Trim(s, IsJsSpace) != "" && parse(Trim(s, IsJsSpace)) == None
    ensures -0x1_0000_0000 < NormalizeTransactionID(parse, Str(s)) < 0
    ensures -NormalizeTransactionID(parse, Str(s)) == Adjust(State(OFFSET, Units(Trim(s, IsJsSpace)))) as int
  {
  }
}
