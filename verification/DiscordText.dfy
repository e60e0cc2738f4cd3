/** Splitting a long text into parts for Discord (services/api/v1endpoints/feedback.go). */
module DiscordText {
  import opened Arithmetic
  import opened Seqs
  import opened Unicode

  // ----- UTF-8 -----

  /** One byte of a UTF-8 string: byte number `k` of the encoding of `c`. */
  datatype Cell = Cell(c: char, k: nat)

  function Width(c: char): (w: nat)
    ensures 1 <= w <= 4
  {
    var r := c as int;
    if r < 0x80 then 1 else if r < 0x800 then 2 else if r < 0x1_0000 then 3 else 4
  }

  /** Section 3 of RFC 3629: one byte has room for 7 bits, and `w` bytes for 5 * w + 1. A rune takes as few
      bytes as have room for it. */
  function Room(w: nat): nat
  {
    if w == 1 then Pow2(7) else Pow2(5 * w + 1)
  }

  lemma WidthIsLeast(c: char)
    ensures (c as int) < Room(Width(c))
    ensures Width(c) > 1 ==> c as int >= Room(Width(c) - 1)
  {
    assert Pow2(7) == 128 && Pow2(11) == 0x800 && Pow2(16) == 0x1_0000 && Pow2(21) == 0x20_0000;
  }

  function EncodeRune(c: char): (s: seq<Cell>)
    ensures |s| == Width(c)
  {
    seq(Width(c), k requires 0 <= k < Width(c) => Cell(c, k))
  }

  /** A whole rune stands at the front, or at the end. */
  predicate Leads(s: seq<Cell>)
  {
    s != [] && |s| >= Width(s[0].c) && s[..Width(s[0].c)] == EncodeRune(s[0].c)
  }

  predicate Trails(s: seq<Cell>)
  {
    s != [] && var c := s[|s| - 1].c; |s| >= Width(c) && s[|s| - Width(c)..] == EncodeRune(c)
  }

  /** `utf8.ValidString`, for a string that is cut out of a valid one. */
  predicate Valid(s: seq<Cell>)
  {
    s == [] || (Leads(s) && Valid(s[Width(s[0].c)..]))
  }

  function Encode(text: string): seq<Cell>
  {
    if text == "" then [] else EncodeRune(text[0]) + Encode(text[1..])
  }

  lemma PrependRune(c: char, rest: seq<Cell>)
    requires Valid(rest)
    ensures Valid(EncodeRune(c) + rest)
  {
    var e := EncodeRune(c);
    assert (e + rest)[0] == e[0] && (e + rest)[..|e|] == e && (e + rest)[|e|..] == rest;
  }

  /** The valid strings are the encodings of texts. */
  lemma {:induction false} EncodingsAreValid(text: string)
    ensures Valid(Encode(text))
  {
    if text != "" {
      EncodingsAreValid(text[1..]);
      PrependRune(text[0], Encode(text[1..]));
    }
  }

  lemma {:induction false} ValidStringsAreEncodings(s: seq<Cell>) returns (text: string)
    requires Valid(s)
    ensures s == Encode(text)
  {
    if s == [] {
      text := "";
    } else {
      var head, tail := EncodeRune(s[0].c), s[Width(s[0].c)..];
      var rest := ValidStringsAreEncodings(tail);
      text := [s[0].c] + rest;
      assert text[1..] == rest;
      assert Encode(text) == head + Encode(rest);
      assert s == head + tail;
    }
  }

  // ----- White space -----

  predicate IsBreak(b: Cell)
  {
    b.c == ' ' || b.c == '\n' || b.c == '\t'
  }

  function TrimLeft(s: seq<Cell>): (r: seq<Cell>)
    ensures |r| <= |s|
  {
    if Leads(s) && IsSpace(s[0].c) then TrimLeft(s[Width(s[0].c)..]) else s
  }

  function TrimRight(s: seq<Cell>): (r: seq<Cell>)
    ensures |r| <= |s|
  {
    if Trails(s) && IsSpace(s[|s| - 1].c) then TrimRight(s[..|s| - Width(s[|s| - 1].c)]) else s
  }

  /** `strings.TrimSpace`. */
  function TrimSpace(s: seq<Cell>): (r: seq<Cell>)
    ensures |r| <= |s|
  {
    TrimRight(TrimLeft(s))
  }

  // ----- The split -----

  /** Where the search backwards from `i` for a word boundary cuts. */
  function CutFrom(s: seq<Cell>, i: nat, maxLength: nat): (cut: nat)
    requires 1 <= maxLength < |s| && i <= maxLength
    ensures 1 <= cut <= maxLength + 1
    ensures cut == maxLength + 1 ==> IsBreak(s[maxLength])
  {
    if !(i > maxLength - 100 && i > 0) then maxLength
    else if IsBreak(s[i]) then i + 1
    else CutFrom(s, i - 1, maxLength)
  }

  function Cut(s: seq<Cell>, maxLength: nat): (cut: nat)
    requires 1 <= maxLength < |s|
    ensures 1 <= cut <= maxLength + 1 && cut <= |s|
    ensures cut == maxLength + 1 ==> IsBreak(s[maxLength])
  {
    CutFrom(s, maxLength, maxLength)
  }

  /** Drop bytes from the end until the rest is valid. */
  function ValidPrefix(s: seq<Cell>): (p: seq<Cell>)
    ensures Valid(p) && p <= s
  {
    if Valid(s) then s else ValidPrefix(s[..|s| - 1])
  }

  function Parts(s: seq<Cell>, maxLength: nat): seq<seq<Cell>>
    requires maxLength >= 1
    decreases |s|
  {
    if s == [] then []
    else if |s| <= maxLength then [s]
    else
      var cut := Cut(s, maxLength);
      [TrimSpace(ValidPrefix(s[..cut]))] + Parts(TrimSpace(s[cut..]), maxLength)
  }

  function Split(content: seq<Cell>, maxLength: nat): seq<seq<Cell>>
    requires maxLength >= 1
  {
    if |content| <= maxLength then [content] else Parts(content, maxLength)
  }

  method SplitContentForDiscord(content: seq<Cell>, maxLength: nat) returns (parts: seq<seq<Cell>>)
    requires maxLength >= 1
    ensures parts == Split(content, maxLength)
  {
    if |content| <= maxLength {
      return [content];
    }
    parts := [];
    var remaining := content;
    ghost var all := Parts(content, maxLength);
    assert parts + all == all;
    while |remaining| > 0
      invariant parts + Parts(remaining, maxLength) == all
      decreases |remaining|
    {
      if |remaining| <= maxLength {
        LastPart(parts, remaining, maxLength);
        parts := parts + [remaining];
        return;
      }
      var part, rest := NextPart(remaining, maxLength);
      SplitStep(parts, remaining, part, rest, maxLength);
      parts := parts + [part];
      remaining := rest;
    }
    NothingLeft(parts, maxLength);
  }

  /** What is cut off the front, and what is left. */
  method NextPart(remaining: seq<Cell>, maxLength: nat) returns (part: seq<Cell>, rest: seq<Cell>)
    requires 1 <= maxLength < |remaining|
    ensures part == TrimSpace(ValidPrefix(remaining[..Cut(remaining, maxLength)]))
    ensures rest == TrimSpace(remaining[Cut(remaining, maxLength)..]) && |rest| < |remaining|
  {
    var cutPoint := FindCut(remaining, maxLength);
    part := TrimToValid(remaining[..cutPoint]);
    part := TrimSpace(part);
    rest := TrimSpace(remaining[cutPoint..]);
  }

  lemma LastPart(parts: seq<seq<Cell>>, s: seq<Cell>, maxLength: nat)
    requires 1 <= |s| <= maxLength
    ensures parts + Parts(s, maxLength) == parts + [s]
  {
  }

  lemma NothingLeft(parts: seq<seq<Cell>>, maxLength: nat)
    requires maxLength >= 1
    ensures parts + Parts([], maxLength) == parts
  {
  }

  /** One round of the loop. */
  lemma SplitStep(parts: seq<seq<Cell>>, s: seq<Cell>, part: seq<Cell>, rest: seq<Cell>, maxLength: nat)
    requires 1 <= maxLength < |s|
    requires part == TrimSpace(ValidPrefix(s[..Cut(s, maxLength)])) && rest == TrimSpace(s[Cut(s, maxLength)..])
    ensures parts + Parts(s, maxLength) == (parts + [part]) + Parts(rest, maxLength)
  {
    FirstPart(s, maxLength);
    Regroup(parts, [part], Parts(rest, maxLength));
  }

  lemma Regroup<T>(a: seq<T>, b: seq<T>, c: seq<T>)
    ensures a + (b + c) == (a + b) + c
  {
  }

  /** A byte that ends a word, among the last hundred that a part may hold or right after them. */
  ghost predicate Boundary(s: seq<Cell>, i: int, maxLength: nat)
  {
    && maxLength - 100 < i <= maxLength && 0 < i < |s|
    && (s[i].c == ' ' || s[i].c == '\n' || s[i].c == '\t')
  }

  lemma {:induction false} CutFromMeaning(s: seq<Cell>, i: nat, maxLength: nat)
    requires 1 <= maxLength < |s| && i <= maxLength
    requires forall j :: i < j <= maxLength ==> !Boundary(s, j, maxLength)
    ensures var cut := CutFrom(s, i, maxLength);
      if exists j :: Boundary(s, j, maxLength)
      then Boundary(s, cut - 1, maxLength) && forall j :: cut - 1 < j ==> !Boundary(s, j, maxLength)
      else cut == maxLength
  {
    if !(i > maxLength - 100 && i > 0) {
      assert forall j :: !Boundary(s, j, maxLength);
    } else if IsBreak(s[i]) {
      assert Boundary(s, i, maxLength);
    } else {
      CutFromMeaning(s, i - 1, maxLength);
    }
  }

  /** A part ends after the last word boundary in reach, or at the length limit when there is none. */
  lemma CutMeaning(s: seq<Cell>, maxLength: nat)
    requires 1 <= maxLength < |s|
    ensures var cut := Cut(s, maxLength);
      if exists i :: Boundary(s, i, maxLength)
      then Boundary(s, cut - 1, maxLength) && forall i :: cut - 1 < i ==> !Boundary(s, i, maxLength)
      else cut == maxLength
  {
    CutFromMeaning(s, maxLength, maxLength);
  }

  lemma {:induction false} ValidPrefixIsLongest(s: seq<Cell>, n: nat)
    requires |ValidPrefix(s)| < n <= |s|
    ensures !Valid(s[..n])
  {
    if n == |s| {
      assert s[..n] == s;
    } else {
      var init := s[..|s| - 1];
      ValidPrefixIsLongest(init, n);
      assert init[..n] == s[..n];
    }
  }

  method FindCut(remaining: seq<Cell>, maxLength: nat) returns (cutPoint: nat)
    requires 1 <= maxLength < |remaining|
    ensures cutPoint == Cut(remaining, maxLength)
  {
    cutPoint := maxLength;
    var i := cutPoint;
    while i > maxLength - 100 && i > 0
      invariant 0 <= i <= maxLength && cutPoint == maxLength
      invariant CutFrom(remaining, i, maxLength) == Cut(remaining, maxLength)
    {
      if IsBreak(remaining[i]) {
        cutPoint := i + 1;
        return;
      }
      i := i - 1;
    }
  }

  method TrimToValid(piece: seq<Cell>) returns (part: seq<Cell>)
    ensures part == ValidPrefix(piece)
  {
    part := piece;
    while |part| > 0 && !Valid(part)
      invariant ValidPrefix(part) == ValidPrefix(piece)
      decreases |part|
    {
      part := part[..|part| - 1];
    }
  }

  // ----- Length -----

  /** A whole rune stands at the end, and what is before it is valid. */
  predicate EndsWhole(s: seq<Cell>)
  {
    Trails(s) && Valid(s[..|s| - Width(s[|s| - 1].c)])
  }

  lemma OneRuneEndsWhole(c: char)
    ensures EndsWhole(EncodeRune(c))
  {
    var s := EncodeRune(c);
    assert s[|s| - 1] == Cell(c, |s| - 1);
    assert s[|s| - Width(c)..] == s;
  }

  lemma MoreEndsWhole(c: char, rest: seq<Cell>)
    requires EndsWhole(rest)
    ensures EndsWhole(EncodeRune(c) + rest)
  {
    var head := EncodeRune(c);
    var s, v := head + rest, Width(rest[|rest| - 1].c);
    assert s[|s| - 1] == rest[|rest| - 1];
    assert s[|s| - v..] == rest[|rest| - v..];
    PrependRune(c, rest[..|rest| - v]);
    assert s[..|s| - v] == head + rest[..|rest| - v];
  }

  lemma {:induction false} ValidEndsWhole(s: seq<Cell>)
    requires Valid(s) && s != []
    ensures EndsWhole(s)
  {
    var c := s[0].c;
    var rest := s[Width(c)..];
    assert s == EncodeRune(c) + rest;
    if rest == [] {
      OneRuneEndsWhole(c);
      assert s == EncodeRune(c);
    } else {
      ValidEndsWhole(rest);
      MoreEndsWhole(c, rest);
    }
  }

  lemma {:induction false} TrimLeftPrefix(s: seq<Cell>)
    ensures !(Leads(TrimLeft(s)) && IsSpace(TrimLeft(s)[0].c))
    decreases |s|
  {
    if Leads(s) && IsSpace(s[0].c) {
      TrimLeftPrefix(s[Width(s[0].c)..]);
    }
  }

  lemma {:induction false} TrimRightSuffix(s: seq<Cell>)
    ensures TrimRight(s) <= s && !(Trails(TrimRight(s)) && IsSpace(TrimRight(s)[|TrimRight(s)| - 1].c))
    decreases |s|
  {
    if Trails(s) && IsSpace(s[|s| - 1].c) {
      TrimRightSuffix(s[..|s| - Width(s[|s| - 1].c)]);
    }
  }

  lemma TrimTwice(s: seq<Cell>)
    ensures TrimSpace(TrimSpace(s)) == TrimSpace(s)
  {
    var l := TrimLeft(s);
    var r := TrimRight(l);
    TrimLeftPrefix(s);
    TrimRightSuffix(l);
    if Leads(r) {
      LeadsOfPrefix(l, r);
    }
    assert TrimLeft(r) == r;
  }

  /** No part of a text that is cut has white space at its ends, nor does what is left after a cut. */
  lemma {:induction false} PartsAreTrimmed(s: seq<Cell>, maxLength: nat)
    requires maxLength >= 1 && (|s| > maxLength || TrimSpace(s) == s)
    ensures forall p :: p in Parts(s, maxLength) ==> TrimSpace(p) == p
    decreases |s|
  {
    if |s| > maxLength {
      var cut := Cut(s, maxLength);
      TrimTwice(ValidPrefix(s[..cut]));
      TrimTwice(s[cut..]);
      PartsAreTrimmed(TrimSpace(s[cut..]), maxLength);
    }
  }

  /** A part fits, although a cut may take one byte too many: that byte is white space and is trimmed. */
  lemma PartFits(s: seq<Cell>, maxLength: nat)
    requires 1 <= maxLength < |s|
    ensures |TrimSpace(ValidPrefix(s[..Cut(s, maxLength)]))| <= maxLength
  {
    var cut := Cut(s, maxLength);
    var piece := s[..cut];
    var p := ValidPrefix(piece);
    if |p| == maxLength + 1 {
      assert p == piece && p[maxLength] == s[maxLength];
      TrimDropsLastSpace(p);
    }
  }

  lemma TrimDropsLastSpace(p: seq<Cell>)
    requires Valid(p) && p != [] && IsSpace(p[|p| - 1].c)
    ensures |TrimSpace(p)| < |p|
  {
    if Leads(p) && IsSpace(p[0].c) {
      assert TrimLeft(p) == TrimLeft(p[Width(p[0].c)..]);
    } else {
      ValidEndsWhole(p);
    }
  }

  /** Every part has at most `maxLength` bytes, whatever the text. */
  lemma {:induction false} PartsFit(s: seq<Cell>, maxLength: nat)
    requires maxLength >= 1
    ensures forall i :: 0 <= i < |Parts(s, maxLength)| ==> |Parts(s, maxLength)[i]| <= maxLength
    decreases |s|
  {
    if |s| > maxLength {
      PartFits(s, maxLength);
      PartsFit(TrimSpace(s[Cut(s, maxLength)..]), maxLength);
    }
  }

  lemma SplitFits(content: seq<Cell>, maxLength: nat)
    requires maxLength >= 1
    ensures forall i :: 0 <= i < |Split(content, maxLength)| ==> |Split(content, maxLength)[i]| <= maxLength
  {
    PartsFit(content, maxLength);
  }

  // ----- Conservation -----

  function Visible(s: seq<Cell>): seq<Cell>
  {
    if s == [] then [] else (if IsSpace(s[0].c) then [] else [s[0]]) + Visible(s[1..])
  }

  function VisibleAll(parts: seq<seq<Cell>>): seq<Cell>
  {
    if parts == [] then [] else Visible(parts[0]) + VisibleAll(parts[1..])
  }

  lemma {:induction false} VisibleAppend(a: seq<Cell>, b: seq<Cell>)
    ensures Visible(a + b) == Visible(a) + Visible(b)
  {
    if a == [] {
      assert a + b == b;
    } else {
      assert (a + b)[1..] == a[1..] + b;
      VisibleAppend(a[1..], b);
    }
  }

  lemma {:induction false} VisibleOfSpace(s: seq<Cell>)
    requires forall i :: 0 <= i < |s| ==> IsSpace(s[i].c)
    ensures Visible(s) == []
  {
    if s != [] {
      VisibleOfSpace(s[1..]);
    }
  }

  lemma LeadingSpaceIsInvisible(s: seq<Cell>)
    requires Leads(s) && IsSpace(s[0].c)
    ensures Visible(s[Width(s[0].c)..]) == Visible(s)
  {
    var w := Width(s[0].c);
    var head, rest := s[..w], s[w..];
    VisibleOfSpace(head);
    VisibleAppend(head, rest);
    assert s == head + rest;
  }

  lemma {:induction false} TrimLeftKeeps(s: seq<Cell>)
    ensures Visible(TrimLeft(s)) == Visible(s) && (Valid(s) ==> Valid(TrimLeft(s)))
    decreases |s|
  {
    if Leads(s) && IsSpace(s[0].c) {
      TrimLeftKeeps(s[Width(s[0].c)..]);
      LeadingSpaceIsInvisible(s);
    }
  }

  lemma {:induction false} TrimRightKeeps(s: seq<Cell>)
    ensures Visible(TrimRight(s)) == Visible(s) && (Valid(s) ==> Valid(TrimRight(s)))
    decreases |s|
  {
    if Trails(s) && IsSpace(s[|s| - 1].c) {
      var n := |s| - Width(s[|s| - 1].c);
      TrimRightKeeps(s[..n]);
      assert s == s[..n] + s[n..];
      VisibleAppend(s[..n], s[n..]);
      VisibleOfSpace(s[n..]);
      if Valid(s) {
        ValidEndsWhole(s);
      }
    }
  }

  lemma TrimKeeps(s: seq<Cell>)
    ensures Visible(TrimSpace(s)) == Visible(s) && (Valid(s) ==> Valid(TrimSpace(s)))
  {
    TrimLeftKeeps(s);
    TrimRightKeeps(TrimLeft(s));
  }

  /** No cut falls inside a rune. */
  predicate CleanCuts(s: seq<Cell>, maxLength: nat)
    requires maxLength >= 1
    decreases |s|
  {
    |s| <= maxLength ||
    (Valid(s[..Cut(s, maxLength)]) && CleanCuts(TrimSpace(s[Cut(s, maxLength)..]), maxLength))
  }

  lemma {:induction false} ValidRest(s: seq<Cell>, n: nat)
    requires Valid(s) && n <= |s| && Valid(s[..n])
    ensures Valid(s[n..])
    decreases n
  {
    if n > 0 {
      var w := Width(s[0].c);
      assert s[..n][0] == s[0];
      TailOfPrefix(s, n, w);
      ValidRest(s[w..], n - w);
      assert s[w..][n - w..] == s[n..];
    } else {
      assert s[0..] == s;
    }
  }

  lemma RestIsValid(s: seq<Cell>, cut: nat)
    requires Valid(s) && cut <= |s| && Valid(s[..cut])
    ensures Valid(TrimSpace(s[cut..]))
  {
    ValidRest(s, cut);
    TrimKeeps(s[cut..]);
  }

  lemma {:induction false} CleanPartsConserve(s: seq<Cell>, maxLength: nat)
    requires maxLength >= 1 && Valid(s) && CleanCuts(s, maxLength)
    ensures VisibleAll(Parts(s, maxLength)) == Visible(s)
    ensures forall i :: 0 <= i < |Parts(s, maxLength)| ==> Valid(Parts(s, maxLength)[i])
    decreases |s|
  {
    if s != [] && |s| <= maxLength {
      assert VisibleAll([s]) == Visible(s) + VisibleAll([]);
    } else if |s| > maxLength {
      var cut := Cut(s, maxLength);
      var rest := TrimSpace(s[cut..]);
      RestIsValid(s, cut);
      TrimKeeps(s[..cut]);
      CleanPartsConserve(rest, maxLength);
      CleanPartConserves(s, maxLength);
      assert Parts(s, maxLength) == [TrimSpace(s[..cut])] + Parts(rest, maxLength);
    }
  }

  lemma CleanPartConserves(s: seq<Cell>, maxLength: nat)
    requires 1 <= maxLength < |s|
    requires Valid(s[..Cut(s, maxLength)])
    ensures var cut := Cut(s, maxLength);
      VisibleAll(Parts(s, maxLength)) == Visible(s[..cut]) + VisibleAll(Parts(TrimSpace(s[cut..]), maxLength))
      && Visible(s) == Visible(s[..cut]) + Visible(TrimSpace(s[cut..]))
  {
    PartBalance(s, maxLength);
    var cut := Cut(s, maxLength);
    assert ValidPrefix(s[..cut]) == s[..cut] && Dropped(s, maxLength) == [];
    var rest := Visible(TrimSpace(s[cut..]));
    assert Visible([]) + rest == rest;
  }

  /** What the trimming to valid UTF-8 drops at the first cut. */
  function Dropped(s: seq<Cell>, maxLength: nat): seq<Cell>
    requires 1 <= maxLength < |s|
  {
    s[..Cut(s, maxLength)][|ValidPrefix(s[..Cut(s, maxLength)])|..]
  }

  /** How many visible bytes are dropped at all cuts together. */
  function Lost(s: seq<Cell>, maxLength: nat): nat
    requires maxLength >= 1
    decreases |s|
  {
    if |s| <= maxLength then 0
    else |Visible(Dropped(s, maxLength))| + Lost(TrimSpace(s[Cut(s, maxLength)..]), maxLength)
  }

  predicate AllSpace(s: seq<Cell>)
  {
    forall i :: 0 <= i < |s| ==> IsSpace(s[i].c)
  }

  /** At every cut nothing but white space is dropped. */
  predicate DropsOnlySpace(s: seq<Cell>, maxLength: nat)
    requires maxLength >= 1
    decreases |s|
  {
    |s| <= maxLength ||
    (AllSpace(Dropped(s, maxLength)) && DropsOnlySpace(TrimSpace(s[Cut(s, maxLength)..]), maxLength))
  }

  /** The first part, what is dropped with it, and the rest have what is visible between them. */
  lemma PartBalance(s: seq<Cell>, maxLength: nat)
    requires 1 <= maxLength < |s|
    ensures var p, rest := ValidPrefix(s[..Cut(s, maxLength)]), TrimSpace(s[Cut(s, maxLength)..]);
      && VisibleAll(Parts(s, maxLength)) == Visible(p) + VisibleAll(Parts(rest, maxLength))
      && Visible(s) == Visible(p) + (Visible(Dropped(s, maxLength)) + Visible(rest))
  {
    var cut := Cut(s, maxLength);
    var a, b := s[..cut], s[cut..];
    var p, d := ValidPrefix(a), Dropped(s, maxLength);
    assert a == p + d && s == a + b;
    VisibleOfThree(p, d, b);
    TrimKeeps(p);
    TrimKeeps(b);
    FirstPart(s, maxLength);
  }

  lemma VisibleOfThree(p: seq<Cell>, d: seq<Cell>, b: seq<Cell>)
    ensures Visible((p + d) + b) == Visible(p) + (Visible(d) + Visible(b))
  {
    VisibleAppend(p + d, b);
    VisibleAppend(p, d);
    Regroup(Visible(p), Visible(d), Visible(b));
  }

  lemma FirstPart(s: seq<Cell>, maxLength: nat)
    requires 1 <= maxLength < |s|
    ensures var p, rest := ValidPrefix(s[..Cut(s, maxLength)]), TrimSpace(s[Cut(s, maxLength)..]);
      Parts(s, maxLength) == [TrimSpace(p)] + Parts(rest, maxLength)
      && VisibleAll(Parts(s, maxLength)) == Visible(TrimSpace(p)) + VisibleAll(Parts(rest, maxLength))
  {
    var cut := Cut(s, maxLength);
    var rest := Parts(TrimSpace(s[cut..]), maxLength);
    assert ([TrimSpace(ValidPrefix(s[..cut]))] + rest)[1..] == rest;
  }

  /** The parts of any text lack exactly the visible bytes that are dropped at the cuts. */
  lemma {:induction false} PartsLose(s: seq<Cell>, maxLength: nat)
    requires maxLength >= 1
    ensures |VisibleAll(Parts(s, maxLength))| + Lost(s, maxLength) == |Visible(s)|
    ensures Lost(s, maxLength) == 0 ==> VisibleAll(Parts(s, maxLength)) == Visible(s)
    decreases |s|
  {
    if s != [] && |s| <= maxLength {
      assert VisibleAll([s]) == Visible(s) + VisibleAll([]);
    } else if |s| > maxLength {
      var rest := TrimSpace(s[Cut(s, maxLength)..]);
      PartBalance(s, maxLength);
      PartsLose(rest, maxLength);
      assert Visible(Dropped(s, maxLength)) == [] ==> Visible(Dropped(s, maxLength)) + Visible(rest) == Visible(rest);
    }
  }

  lemma {:induction false} InvisibleExactly(s: seq<Cell>)
    ensures Visible(s) == [] <==> AllSpace(s)
  {
    if AllSpace(s) {
      VisibleOfSpace(s);
    } else {
      var i :| 0 <= i < |s| && !IsSpace(s[i].c);
      VisibleAppend(s[..i], s[i..]);
      assert s == s[..i] + s[i..] && s[i..][0] == s[i];
    }
  }

  lemma {:induction false} LosesNothingExactly(s: seq<Cell>, maxLength: nat)
    requires maxLength >= 1
    ensures Lost(s, maxLength) == 0 <==> DropsOnlySpace(s, maxLength)
    decreases |s|
  {
    if |s| > maxLength {
      InvisibleExactly(Dropped(s, maxLength));
      LosesNothingExactly(TrimSpace(s[Cut(s, maxLength)..]), maxLength);
    }
  }

  /** A rune that takes more than one byte is not white space. */
  ghost predicate NoWideSpace(s: seq<Cell>)
  {
    forall i :: 0 <= i < |s| && IsSpace(s[i].c) ==> Width(s[i].c) == 1
  }

  lemma {:induction false} CutAfterNarrow(s: seq<Cell>, n: nat)
    requires Valid(s) && 0 < n <= |s| && Width(s[n - 1].c) == 1
    ensures Valid(s[..n])
    decreases n
  {
    var w := Width(s[0].c);
    assert s[..w] == EncodeRune(s[0].c);
    if n <= w {
      assert s[n - 1] == EncodeRune(s[0].c)[n - 1];
      assert s[..n][..w] == s[..w] && s[..n][w..] == [];
    } else {
      assert s[w..][n - w - 1] == s[n - 1];
      CutAfterNarrow(s[w..], n - w);
      TailOfPrefix(s, n, w);
      assert s[..n][..w] == s[..w];
    }
  }

  lemma RestIsNarrow(s: seq<Cell>, cut: nat)
    requires NoWideSpace(s) && cut <= |s|
    ensures NoWideSpace(TrimSpace(s[cut..]))
  {
    var i, j := TrimIsSlice(s[cut..]);
    assert forall k :: 0 <= k < j - i ==> s[cut..][i..j][k] == s[cut + i + k];
  }

  lemma {:induction false} UncleanDropsVisible(s: seq<Cell>, maxLength: nat)
    requires maxLength >= 1 && Valid(s) && NoWideSpace(s) && DropsOnlySpace(s, maxLength)
    ensures CleanCuts(s, maxLength)
    decreases |s|
  {
    if |s| > maxLength {
      var cut := Cut(s, maxLength);
      CleanCutWhenNarrow(s, cut);
      RestIsValid(s, cut);
      RestIsNarrow(s, cut);
      UncleanDropsVisible(TrimSpace(s[cut..]), maxLength);
    }
  }

  lemma CleanCutWhenNarrow(s: seq<Cell>, cut: nat)
    requires Valid(s) && NoWideSpace(s) && 0 < cut <= |s|
    requires AllSpace(s[..cut][|ValidPrefix(s[..cut])|..])
    ensures Valid(s[..cut])
  {
    var a := s[..cut];
    var d := a[|ValidPrefix(a)|..];
    if d == [] {
      assert ValidPrefix(a) == a;
    } else {
      assert d[|d| - 1] == s[cut - 1];
      CutAfterNarrow(s, cut);
    }
  }

  lemma {:induction false} TrimLeftIsSlice(s: seq<Cell>) returns (i: nat)
    ensures i <= |s| && TrimLeft(s) == s[i..]
    decreases |s|
  {
    i := 0;
    if Leads(s) && IsSpace(s[0].c) {
      i := TrimLeftIsSlice(s[Width(s[0].c)..]);
      i := i + Width(s[0].c);
    }
  }

  lemma {:induction false} TrimRightIsSlice(s: seq<Cell>) returns (j: nat)
    ensures j <= |s| && TrimRight(s) == s[..j]
    decreases |s|
  {
    j := |s|;
    if Trails(s) && IsSpace(s[|s| - 1].c) {
      j := TrimRightIsSlice(s[..|s| - Width(s[|s| - 1].c)]);
    }
  }

  lemma TrimIsSlice(s: seq<Cell>) returns (i: nat, j: nat)
    ensures i <= j <= |s| && TrimSpace(s) == s[i..j]
  {
    i := TrimLeftIsSlice(s);
    j := TrimRightIsSlice(s[i..]);
    j := i + j;
  }

  /** The parts are valid UTF-8 and have exactly the visible characters of the text, in order, if
      no cut falls inside a rune. */
  lemma CleanSplitConserves(content: seq<Cell>, maxLength: nat)
    requires maxLength >= 1 && Valid(content) && CleanCuts(content, maxLength)
    ensures VisibleAll(Split(content, maxLength)) == Visible(content)
    ensures forall i :: 0 <= i < |Split(content, maxLength)| ==> Valid(Split(content, maxLength)[i])
  {
    CleanPartsConserve(content, maxLength);
    assert VisibleAll([content]) == Visible(content) + VisibleAll([]);
  }

  /** For every piece cut out of a valid text: the parts have exactly its visible characters if and only
      if nothing but white space is dropped at the cuts, and otherwise lack as many as are dropped. */
  lemma ConservesExactly(content: seq<Cell>, maxLength: nat)
    requires maxLength >= 1
    ensures VisibleAll(Split(content, maxLength)) == Visible(content) <==> DropsOnlySpace(content, maxLength)
    ensures |VisibleAll(Split(content, maxLength))| + Lost(content, maxLength) == |Visible(content)|
  {
    PartsLose(content, maxLength);
    LosesNothingExactly(content, maxLength);
    assert VisibleAll([content]) == Visible(content) + VisibleAll([]);
  }

  /** For a text whose white space takes single bytes the condition is that no cut falls inside a rune. */
  lemma NarrowConservesExactly(content: seq<Cell>, maxLength: nat)
    requires maxLength >= 1 && Valid(content) && NoWideSpace(content)
    ensures VisibleAll(Split(content, maxLength)) == Visible(content) <==> CleanCuts(content, maxLength)
  {
    ConservesExactly(content, maxLength);
    if CleanCuts(content, maxLength) {
      CleanSplitConserves(content, maxLength);
    } else if DropsOnlySpace(content, maxLength) {
      UncleanDropsVisible(content, maxLength);
    }
  }

  lemma LeadsOfPrefix(s: seq<Cell>, p: seq<Cell>)
    requires p <= s && Leads(p)
    ensures Leads(s)
  {
    var w := Width(p[0].c);
    assert s[..w] == p[..w];
  }

  /** A text that does not begin with a whole rune loses its whole first part. */
  lemma HeadlessPartIsEmpty(s: seq<Cell>, maxLength: nat)
    requires 1 <= maxLength < |s| && !Leads(s)
    ensures Parts(s, maxLength)[0] == [] && Dropped(s, maxLength) == s[..Cut(s, maxLength)]
  {
    var a := s[..Cut(s, maxLength)];
    var p := ValidPrefix(a);
    if p != [] {
      LeadsOfPrefix(s, p);
    }
  }

  lemma TailOfPrefix<T>(s: seq<T>, n: nat, w: nat)
    requires w <= n <= |s|
    ensures s[..n][w..] == s[w..][..n - w]
  {
  }

  lemma {:induction false} CutBeforeRune(s: seq<Cell>, n: nat)
    requires Valid(s) && n < |s| && s[n].k == 0
    ensures Valid(s[..n])
    decreases n
  {
    if n > 0 {
      var w := Width(s[0].c);
      var head := s[..w];
      assert head == EncodeRune(s[0].c);
      forall i | 0 <= i < w
        ensures s[i].k == i
      {
        assert s[i] == head[i] == EncodeRune(s[0].c)[i];
      }
      assert n >= w;
      assert s[w..][n - w] == s[n];
      CutBeforeRune(s[w..], n - w);
      TailOfPrefix(s, n, w);
      assert s[..n][..w] == s[..w];
    }
  }

  /** So a cut inside a rune of valid text costs more than that rune: when more than one part is
      left, the next one is empty and all that it should hold is dropped. */
  lemma BrokenCutEmptiesNext(s: seq<Cell>, maxLength: nat)
    requires 1 <= maxLength < |s| && Valid(s) && !Valid(s[..Cut(s, maxLength)])
    requires |TrimSpace(s[Cut(s, maxLength)..])| > maxLength
    ensures var rest := TrimSpace(s[Cut(s, maxLength)..]);
      && |Parts(s, maxLength)| > 1 && Parts(s, maxLength)[1] == []
      && Dropped(rest, maxLength) == rest[..Cut(rest, maxLength)]
      && Lost(s, maxLength) >= |Visible(rest[..Cut(rest, maxLength)])|
  {
    var cut := Cut(s, maxLength);
    var b := s[cut..];
    var rest := TrimSpace(b);
    if Leads(b) {
      assert b[0] == EncodeRune(b[0].c)[0];
      CutBeforeRune(s, cut);
    }
    assert TrimLeft(b) == b;
    var j := TrimRightIsSlice(b);
    assert rest <= b;
    if Leads(rest) {
      LeadsOfPrefix(b, rest);
    }
    HeadlessPartIsEmpty(rest, maxLength);
    FirstPart(s, maxLength);
  }

  ghost predicate Ascii(s: seq<Cell>)
  {
    forall i :: 0 <= i < |s| ==> Width(s[i].c) == 1
  }

  lemma RestIsAscii(s: seq<Cell>, cut: nat)
    requires Ascii(s) && cut <= |s|
    ensures Ascii(TrimSpace(s[cut..]))
  {
    var i, j := TrimIsSlice(s[cut..]);
  }

  /** ASCII text is always cut cleanly. */
  lemma {:induction false} AsciiIsClean(s: seq<Cell>, maxLength: nat)
    requires maxLength >= 1 && Valid(s) && Ascii(s)
    ensures CleanCuts(s, maxLength)
    decreases |s|
  {
    if |s| > maxLength {
      var cut := Cut(s, maxLength);
      CutAfterNarrow(s, cut);
      ValidRest(s, cut);
      TrimKeeps(s[cut..]);
      RestIsAscii(s, cut);
      AsciiIsClean(TrimSpace(s[cut..]), maxLength);
    }
  }

  /** Otherwise a part may not even be valid UTF-8: cut after two bytes, a letter and a two-byte rune
      become the letter, and the second byte of the rune. */
  lemma BrokenRune(c: char)
    requires Width(c) == 2 && !IsSpace(c)
    ensures var content := [Cell('a', 0), Cell(c, 0), Cell(c, 1)];
      Valid(content) && Split(content, 2) == [[Cell('a', 0)], [Cell(c, 1)]] && !Valid([Cell(c, 1)])
  {
    var content := [Cell('a', 0), Cell(c, 0), Cell(c, 1)];
    var head, rest := [Cell('a', 0)], [Cell(c, 1)];
    BrokenContentIsValid(c);
    BrokenCut(content);
    assert content[..2] == head + [Cell(c, 0)] && content[2..] == rest;
    HeadThenHalf(c);
    assert !Leads(rest) && !Valid(rest);
    assert TrimSpace(rest) == rest && TrimSpace(head) == head;
    assert Parts(rest, 2) == [rest];
    FirstPart(content, 2);
    assert [head] + [rest] == [head, rest];
  }

  lemma BrokenContentIsValid(c: char)
    requires Width(c) == 2
    ensures Valid([Cell('a', 0), Cell(c, 0), Cell(c, 1)])
  {
    var rune, head := [Cell(c, 0), Cell(c, 1)], [Cell('a', 0)];
    assert EncodeRune('a') == head && EncodeRune(c) == rune;
    PrependRune(c, []);
    assert rune + [] == rune;
    PrependRune('a', rune);
    assert head + rune == [Cell('a', 0), Cell(c, 0), Cell(c, 1)];
  }

  lemma BrokenCut(content: seq<Cell>)
    requires |content| == 3 && !IsBreak(content[1]) && !IsBreak(content[2])
    ensures Cut(content, 2) == 2
  {
    assert CutFrom(content, 0, 2) == 2;
    assert CutFrom(content, 1, 2) == 2;
  }

  lemma HeadThenHalf(c: char)
    requires Width(c) == 2
    ensures ValidPrefix([Cell('a', 0)] + [Cell(c, 0)]) == [Cell('a', 0)]
  {
    var head, half := [Cell('a', 0)], [Cell(c, 0)];
    var piece := head + half;
    assert EncodeRune('a') == head;
    assert !Leads(half) && !Valid(half);
    assert piece[..1] == head && piece[1..] == half && !Valid(piece);
    assert piece[..|piece| - 1] == head;
    PrependRune('a', []);
    assert head + [] == head;
    assert ValidPrefix(head) == head;
  }

  // ----- Sanitizing -----

  /** Neither a control character, but for line feed and tab, nor DEL. */
  predicate IsAllowed(c: char)
  {
    c == '\n' || c == '\t' || (c as int >= 32 && c as int != 127)
  }

  method SanitizeForDiscord(content: string) returns (sanitized: string)
    ensures sanitized == Filter(content, IsAllowed)
    ensures forall c :: c in sanitized <==>
      c in content && (c == '\n' || c == '\t' || (32 <= c as int && c as int != 127))
  {
    sanitized := "";
    for i := 0 to |content|
      invariant sanitized == Filter(content[..i], IsAllowed)
    {
      assert content[..i + 1] == content[..i] + [content[i]];
      FilterAppend(content[..i], [content[i]], IsAllowed);
      FilterOne(content[i], IsAllowed);
      if IsAllowed(content[i]) {
        sanitized := sanitized + [content[i]];
      }
    }
    assert content[..|content|] == content;
  }

  lemma {:induction false} EncodeNarrow(text: string)
    requires forall i :: 0 <= i < |text| ==> Width(text[i]) == 1
    ensures Ascii(Encode(text))
  {
    if text != "" {
      EncodeNarrow(text[1..]);
    }
  }

  /** An ASCII message, sanitized and split, arrives in parts that fit, are valid, and have exactly
      its visible characters that are allowed. */
  lemma AsciiMessageArrives(text: string, maxLength: nat)
    requires maxLength >= 1 && forall i :: 0 <= i < |text| ==> Width(text[i]) == 1
    ensures var content := Encode(Filter(text, IsAllowed));
      var parts := Split(content, maxLength);
      && VisibleAll(parts) == Visible(content)
      && forall i :: 0 <= i < |parts| ==> |parts[i]| <= maxLength && Valid(parts[i])
  {
    var sanitized := Filter(text, IsAllowed);
    forall i | 0 <= i < |sanitized|
      ensures Width(sanitized[i]) == 1
    {
      assert sanitized[i] in sanitized;
    }
    EncodeNarrow(sanitized);
    EncodingsAreValid(sanitized);
    AsciiIsClean(Encode(sanitized), maxLength);
    CleanSplitConserves(Encode(sanitized), maxLength);
    SplitFits(Encode(sanitized), maxLength);
  }
}
