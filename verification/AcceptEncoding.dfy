/** Choosing a response coding from an Accept-Encoding header: the one-pass scanner of
    services/api/middleware/compression.go and its twin in frontend/deployment/server.js,
    against section 12.5.3 of RFC 9110. */
module AcceptEncoding {
  import opened Seqs
  import opened Text
  import opened Unicode

  /** A number parser: `None` is a parse error. A parser that can say NaN is covered by one that
      says 0 instead, for both make the scanner pass over the element. */
  type Parser = string -> Option<real>

  datatype Element = Element(name: string, quality: real)

  datatype Coding = Identity | Gzip | Brotli

  datatype Choice = Choice(coding: Coding, quality: real)

  const START := Choice(Identity, -1.0)

  // ----- The elements of a header -----

  function UntilBlank(s: string): string
  {
    if s == "" || IsBlank(s[0]) then "" else [s[0]] + UntilBlank(s[1..])
  }

  predicate IsQParameter(p: string)
  {
    |p| >= 2 && (p[0] == 'q' || p[0] == 'Q') && p[1] == '='
  }

  /** The weight that the text after a semicolon gives; 1 when it gives none that parses. */
  function WeightOf(parse: Parser, p: string): real
  {
    var q := SkipBlanks(p);
    if !IsQParameter(q) then 1.0
    else
      var digits := UntilBlank(SkipBlanks(q[2..]));
      if digits == "" then 1.0
      else
        match parse(digits)
        case None => 1.0
        case Some(w) => w
  }

  /** The name in a comma-separated piece. */
  function NameOf(piece: string): string
  {
    var s := SkipBlanks(piece);
    Trim(s[..IndexOf(s, ';')], IsSpace)
  }

  /** What one comma-separated piece stands for: nothing, when it has no name or weight 0. */
  function ElementOf(parse: Parser, piece: string): seq<Element>
  {
    var s := SkipBlanks(piece);
    var k := IndexOf(s, ';');
    var name := Trim(s[..k], IsSpace);
    var weight := if k < |s| then WeightOf(parse, s[k + 1..]) else 1.0;
    if name == "" || weight == 0.0 then [] else [Element(name, weight)]
  }

  function ElementsOf(parse: Parser, pieces: seq<string>): seq<Element>
  {
    if pieces == [] then [] else ElementOf(parse, pieces[0]) + ElementsOf(parse, pieces[1..])
  }

  function Elements(parse: Parser, header: string): seq<Element>
  {
    ElementsOf(parse, Split(header, ','))
  }

  // ----- Choosing -----

  predicate EqualFold(a: string, b: string)
  {
    |a| == |b| && forall i :: 0 <= i < |a| ==> Lower(a[i]) == Lower(b[i])
  }

  function Lower(c: char): char
  {
    if 'A' <= c <= 'Z' then c - 'A' + 'a' else c
  }

  predicate IsBrotli(name: string)
  {
    EqualFold(name, "br") || EqualFold(name, "brotli")
  }

  predicate IsGzip(name: string)
  {
    EqualFold(name, "gzip")
  }

  /** Names are compared without case, and brotli has two. */
  lemma CodingNames(name: string)
    ensures IsGzip(name) <==>
      && |name| == 4 && name[0] in {'g', 'G'} && name[1] in {'z', 'Z'} && name[2] in {'i', 'I'} && name[3] in {'p', 'P'}
    ensures IsBrotli(name) <==>
      && (|name| == 2 || |name| == 6) && name[0] in {'b', 'B'} && name[1] in {'r', 'R'}
      && (|name| == 6 ==>
            name[2] in {'o', 'O'} && name[3] in {'t', 'T'} && name[4] in {'l', 'L'} && name[5] in {'i', 'I'})
  {
  }

  /** The effect of one element on the best choice so far. */
  function Choose(best: Choice, e: Element): Choice
  {
    if e.name == "*" && e.quality > best.quality then Choice(Brotli, e.quality)
    else if IsBrotli(e.name) && (e.quality > best.quality || (e.quality == best.quality && best.coding == Gzip)) then
      Choice(Brotli, e.quality)
    else if IsGzip(e.name) && e.quality > best.quality then Choice(Gzip, e.quality)
    else best
  }

  function ChooseAll(best: Choice, es: seq<Element>): Choice
    decreases |es|
  {
    if es == [] then best else ChooseAll(Choose(best, es[0]), es[1..])
  }

  // ----- The scanner -----

  lemma {:induction false} ElementsOfCons(parse: Parser, piece: string, pieces: seq<string>)
    ensures ElementsOf(parse, [piece] + pieces) == ElementOf(parse, piece) + ElementsOf(parse, pieces)
  {
    assert ([piece] + pieces)[1..] == pieces;
  }

  lemma {:induction false} ElementsOfLast(parse: Parser, header: string)
    requires IndexOf(header, ',') == |header|
    ensures Elements(parse, header) == ElementOf(parse, header)
  {
    SplitLast(header, ',');
    ElementsOfCons(parse, header, []);
    assert [header] + [] == [header];
    assert ElementOf(parse, header) + [] == ElementOf(parse, header);
  }

  lemma {:induction false} ElementsOfMore(parse: Parser, header: string, n: nat)
    requires n == IndexOf(header, ',') && n < |header|
    ensures Elements(parse, header) == ElementOf(parse, header[..n]) + Elements(parse, header[n + 1..])
  {
    SplitMore(header, ',', n);
    ElementsOfCons(parse, header[..n], Split(header[n + 1..], ','));
  }

  lemma BlankIgnored(parse: Parser, piece: string)
    requires piece != "" && IsBlank(piece[0])
    ensures ElementOf(parse, piece) == ElementOf(parse, piece[1..])
  {
  }

  lemma NoElement(parse: Parser)
    ensures ElementOf(parse, "") == []
  {
  }

  /** Neither a blank nor a comma before the first name adds an element. */
  lemma {:induction false} SkipLeading(parse: Parser, header: string)
    requires header != "" && (IsBlank(header[0]) || header[0] == ',')
    ensures Elements(parse, header) == Elements(parse, header[1..])
  {
    var n := IndexOf(header, ',');
    if n == 0 {
      SkipComma(parse, header);
    } else if n == |header| {
      ElementsOfLast(parse, header);
      BlankIgnored(parse, header);
      IndexOfUnique(header[1..], ',', n - 1);
      ElementsOfLast(parse, header[1..]);
    } else {
      SkipBlankBefore(parse, header, n);
    }
  }

  lemma {:induction false} SkipComma(parse: Parser, header: string)
    requires header != "" && header[0] == ','
    ensures Elements(parse, header) == Elements(parse, header[1..])
  {
    ElementsOfMore(parse, header, 0);
    NoElement(parse);
    assert header[..0] == "";
  }

  lemma {:induction false} SkipBlankBefore(parse: Parser, header: string, n: nat)
    requires n == IndexOf(header, ',') && 0 < n < |header| && IsBlank(header[0])
    ensures Elements(parse, header) == Elements(parse, header[1..])
  {
    var rest, head, tail := header[1..], header[..n], header[n + 1..];
    assert head[1..] == rest[..n - 1] && tail == rest[n..];
    CommaAfterBlank(header, n);
    BlankIgnored(parse, head);
    ElementsOfMore(parse, header, n);
    ElementsOfMore(parse, rest, n - 1);
  }

  lemma CommaAfterBlank(header: string, n: nat)
    requires n == IndexOf(header, ',') && 0 < n < |header|
    ensures IndexOf(header[1..], ',') == n - 1
  {
    IndexOfUnique(header[1..], ',', n - 1);
  }

  /** Scanning from the start of a name to the next comma reads exactly one piece. */
  lemma {:induction false} OnePiece(parse: Parser, header: string, end: nat)
    requires end == IndexOf(header, ',')
    ensures Elements(parse, header)
         == ElementOf(parse, header[..end]) + Elements(parse, header[end..])
  {
    if end < |header| {
      var rest := header[end..];
      ElementsOfMore(parse, header, end);
      SkipComma(parse, rest);
      assert rest[1..] == header[end + 1..];
    } else {
      LastPiece(parse, header);
    }
  }

  lemma {:induction false} LastPiece(parse: Parser, header: string)
    requires IndexOf(header, ',') == |header|
    ensures Elements(parse, header)
         == ElementOf(parse, header[..|header|]) + Elements(parse, header[|header|..])
  {
    var n := |header|;
    ElementsOfLast(parse, header);
    assert header[..n] == header && header[n..] == "";
    ElementsOfLast(parse, "");
    NoElement(parse);
  }

  lemma {:induction false} ChooseAppend(best: Choice, a: seq<Element>, b: seq<Element>)
    ensures ChooseAll(best, a + b) == ChooseAll(ChooseAll(best, a), b)
    decreases |a|
  {
    if a == [] {
      assert a + b == b;
    } else {
      assert (a + b)[1..] == a[1..] + b;
      ChooseAppend(Choose(best, a[0]), a[1..], b);
    }
  }

  /** The piece that `start` lies in runs to `end`. */
  ghost predicate PieceEnd(header: string, start: nat, end: nat)
  {
    && start <= end <= |header|
    && (forall k :: start <= k < end ==> header[k] != ',')
    && (end < |header| ==> header[end] == ',')
  }

  lemma FindPieceEnd(header: string, start: nat) returns (end: nat)
    requires start <= |header|
    ensures PieceEnd(header, start, end) && end == start + IndexOf(header[start..], ',')
  {
    end := start + IndexOf(header[start..], ',');
    forall k | start <= k < end
      ensures header[k] != ','
    {
      assert header[k] == header[start..][k - start];
    }
  }

  method SkipBlanksFrom(header: string, start: nat, ghost end: nat) returns (i: nat)
    requires PieceEnd(header, start, end)
    ensures PieceEnd(header, i, end) && header[i..end] == SkipBlanks(header[start..end])
  {
    i := start;
    while i < |header| && IsBlank(header[i])
      invariant PieceEnd(header, i, end)
      invariant SkipBlanks(header[i..end]) == SkipBlanks(header[start..end])
    {
      assert header[i..end][1..] == header[i + 1..end];
      i := i + 1;
    }
  }

  method WordFrom(header: string, start: nat, ghost end: nat) returns (i: nat)
    requires PieceEnd(header, start, end)
    ensures start <= i && PieceEnd(header, i, end) && header[start..i] == UntilBlank(header[start..end])
  {
    i := start;
    while i < |header| && header[i] != ',' && !IsBlank(header[i])
      invariant start <= i && PieceEnd(header, i, end)
      invariant forall k :: start <= k < i ==> !IsBlank(header[k])
    {
      i := i + 1;
    }
    UntilBlankIs(header[start..end], i - start);
    assert header[start..end][..i - start] == header[start..i];
  }

  lemma {:induction false} UntilBlankIs(s: string, n: nat)
    requires n <= |s| && (n < |s| ==> IsBlank(s[n]))
    requires forall k :: 0 <= k < n ==> !IsBlank(s[k])
    ensures UntilBlank(s) == s[..n]
  {
    if n > 0 {
      UntilBlankIs(s[1..], n - 1);
      assert s[..n] == [s[0]] + s[1..][..n - 1];
    }
  }

  /** The parameter part of one element, from the semicolon at `start`. */
  method ReadWeight(parse: Parser, header: string, start: nat, ghost end: nat) returns (quality: real, i: nat)
    requires PieceEnd(header, start, end) && start < end && header[start] == ';'
    ensures quality == WeightOf(parse, header[start + 1..end])
    ensures PieceEnd(header, i, end)
  {
    quality := 1.0;
    i := SkipBlanksFrom(header, start + 1, end);
    ghost var p := header[i..end];
    if i + 1 < |header| && (header[i] == 'q' || header[i] == 'Q') && header[i + 1] == '=' {
      assert p[2..] == header[i + 2..end];
      var qStart := SkipBlanksFrom(header, i + 2, end);
      i := WordFrom(header, qStart, end);
      if qStart < i {
        match parse(header[qStart..i]) {
          case Some(q) => quality := q;
          case None =>
        }
      }
    }
  }

  /** The branches that weigh one element against the best so far. */
  method Weigh(best: Choice, encoding: string, quality: real) returns (next: Choice)
    ensures next == Choose(best, Element(encoding, quality))
  {
    next := best;
    if encoding == "*" && quality > next.quality {
      next := Choice(Brotli, quality);
    }
    if |encoding| >= 2 && quality >= next.quality {
      if (encoding[0] == 'b' || encoding[0] == 'B') && (encoding[1] == 'r' || encoding[1] == 'R') {
        if |encoding| == 2 || (|encoding| == 6 && EqualFold(encoding, "brotli")) {
          if quality > next.quality || (quality == next.quality && next.coding == Gzip) {
            next := Choice(Brotli, quality);
          }
        }
      } else if |encoding| == 4 && (encoding[0] == 'g' || encoding[0] == 'G')
                && (encoding[1] == 'z' || encoding[1] == 'Z')
                && (encoding[2] == 'i' || encoding[2] == 'I')
                && (encoding[3] == 'p' || encoding[3] == 'P') {
        if quality > next.quality {
          next := Choice(Gzip, quality);
        }
      }
    }
  }

  method SkipToComma(header: string, start: nat, ghost end: nat) returns (i: nat)
    requires PieceEnd(header, start, end)
    ensures i == end
  {
    i := start;
    while i < |header| && header[i] != ','
      invariant PieceEnd(header, i, end)
    {
      i := i + 1;
    }
  }

  /** The name and weight of the element whose name starts at `start`. */
  method ReadElement(parse: Parser, header: string, start: nat, ghost end: nat)
    returns (encoding: string, quality: real, i: nat)
    requires PieceEnd(header, start, end) && start < end && !IsBlank(header[start])
    ensures PieceEnd(header, i, end)
    ensures ElementOf(parse, header[start..end])
         == if encoding == "" || quality == 0.0 then [] else [Element(encoding, quality)]
  {
    quality, i := 1.0, start;
    while i < |header| && header[i] != ',' && header[i] != ';'
      invariant start <= i && PieceEnd(header, i, end)
      invariant forall k :: start <= k < i ==> header[k] != ';'
    {
      i := i + 1;
    }
    ElementAt(parse, header, start, i, end);
    encoding := Trim(header[start..i], IsSpace);
    if encoding != "" && i < |header| && header[i] == ';' {
      quality, i := ReadWeight(parse, header, i, end);
    }
  }

  /** The element of a piece, told from where its name ends. */
  lemma ElementAt(parse: Parser, header: string, start: nat, i: nat, end: nat)
    requires PieceEnd(header, start, end) && start < end && !IsBlank(header[start])
    requires start <= i <= end && (forall k :: start <= k < i ==> header[k] != ';') && (i < end ==> header[i] == ';')
    ensures var name := Trim(header[start..i], IsSpace);
      var weight := if i < end then WeightOf(parse, header[i + 1..end]) else 1.0;
      ElementOf(parse, header[start..end]) == if name == "" || weight == 0.0 then [] else [Element(name, weight)]
  {
    var piece, k := header[start..end], i - start;
    IndexOfUnique(piece, ';', k);
    assert SkipBlanks(piece) == piece;
    assert piece[..k] == header[start..i];
    assert i < end ==> piece[k + 1..] == header[i + 1..end];
  }

  /** The scanner: one pass over the header, in place. */
  method Negotiate(parse: Parser, header: string) returns (best: Choice)
    ensures best == ChooseAll(START, Elements(parse, header))
    ensures AcceptsNoBrotli(parse, header) ==> (best.coding == Brotli <==> WildcardWins(Elements(parse, header)))
    ensures AcceptsNoGzip(parse, header) ==> best.coding != Gzip
  {
    best := START;
    var i := 0;
    assert header[0..] == header;
    while i < |header|
      invariant i <= |header|
      invariant ChooseAll(best, Elements(parse, header[i..])) == ChooseAll(START, Elements(parse, header))
    {
      i := SkipSeparators(parse, header, i);
      if i >= |header| {
        break;
      }
      ghost var start := i;
      ghost var end := FindPieceEnd(header, start);
      Consume(parse, header, start, end, best);
      var encoding, quality;
      encoding, quality, i := ReadElement(parse, header, i, end);
      if encoding == "" || quality == 0.0 {
        i := SkipToComma(header, i, end);
        continue;
      }
      ChooseOne(best, Element(encoding, quality));
      best := Weigh(best, encoding, quality);
      i := SkipToComma(header, i, end);
    }
    NothingLeft(parse, header[i..], best);
    if AcceptsNoBrotli(parse, header) {
      RefusedBrotliIsChosenExactly(parse, header);
    }
    if AcceptsNoGzip(parse, header) {
      RefusedGzipIsNeverChosen(parse, header);
    }
  }

  lemma NothingLeft(parse: Parser, header: string, best: Choice)
    requires header == ""
    ensures ChooseAll(best, Elements(parse, header)) == best
  {
    ElementsOfLast(parse, header);
    NoElement(parse);
  }

  lemma ChooseOne(best: Choice, e: Element)
    ensures ChooseAll(best, [e]) == Choose(best, e)
  {
  }

  lemma {:induction false} Consume(parse: Parser, header: string, start: nat, end: nat, best: Choice)
    requires start <= |header| && end == start + IndexOf(header[start..], ',')
    ensures ChooseAll(best, Elements(parse, header[start..]))
         == ChooseAll(ChooseAll(best, ElementOf(parse, header[start..end])), Elements(parse, header[end..]))
  {
    var rest, n := header[start..], end - start;
    assert rest[..n] == header[start..end] && rest[n..] == header[end..];
    OnePiece(parse, rest, n);
    ChooseAppend(best, ElementOf(parse, header[start..end]), Elements(parse, header[end..]));
  }

  method SkipSeparators(parse: Parser, header: string, start: nat) returns (i: nat)
    requires start < |header|
    ensures start <= i <= |header|
    ensures i < |header| ==> !IsBlank(header[i]) && header[i] != ','
    ensures Elements(parse, header[i..]) == Elements(parse, header[start..])
  {
    i := start;
    while i < |header| && (IsBlank(header[i]) || header[i] == ',')
      invariant start <= i <= |header|
      invariant Elements(parse, header[i..]) == Elements(parse, header[start..])
    {
      SkipLeading(parse, header[i..]);
      assert header[i..][1..] == header[i + 1..];
      i := i + 1;
    }
  }

  // ----- What an element is read as -----

  ghost predicate Blanks(s: string)
  {
    forall i :: 0 <= i < |s| ==> s[i] == ' ' || s[i] == '\t'
  }

  /** A name as a client writes it: no separator in it and no white space at its ends. */
  ghost predicate PlainName(name: string)
  {
    name != "" && Without(name, ',') && Without(name, ';') && !IsSpace(name[0]) && !IsSpace(name[|name| - 1])
  }

  /** The text of a weight: one word. */
  ghost predicate PlainWeight(digits: string)
  {
    digits != "" && forall i :: 0 <= i < |digits| ==> digits[i] != ' ' && digits[i] != '\t' && digits[i] != ','
  }

  lemma {:induction false} BlanksSkipped(a: string, s: string)
    requires Blanks(a) && (s == "" || (s[0] != ' ' && s[0] != '\t'))
    ensures SkipBlanks(a + s) == s
  {
    if a == "" {
      assert a + s == s;
    } else {
      assert (a + s)[1..] == a[1..] + s;
      BlanksSkipped(a[1..], s);
    }
  }

  /** A parameter `q=` with blanks around its name and after the sign, up to its next blank. */
  lemma WeightIsRead(parse: Parser, a: string, q: char, b: string, digits: string, rest: string)
    requires (q == 'q' || q == 'Q') && Blanks(a) && Blanks(b)
    requires digits == "" || PlainWeight(digits)
    requires rest == "" || (digits != "" && (rest[0] == ' ' || rest[0] == '\t'))
    ensures WeightOf(parse, a + ([q, '='] + (b + (digits + rest))))
         == if digits == "" || parse(digits) == None then 1.0 else parse(digits).value
  {
    var word := digits + rest;
    var p := [q, '='] + (b + word);
    BlanksSkipped(a, p);
    assert p[2..] == b + word;
    BlanksSkipped(b, word);
    UntilBlankIs(word, |digits|);
    assert word[..|digits|] == digits;
  }

  /** Any other parameter gives the weight 1. */
  lemma OtherParameterIsOne(parse: Parser, a: string, p: string)
    requires Blanks(a) && (p == "" || (p[0] != ' ' && p[0] != '\t'))
    requires |p| < 2 || (p[0] != 'q' && p[0] != 'Q') || p[1] != '='
    ensures WeightOf(parse, a + p) == 1.0
  {
    BlanksSkipped(a, p);
  }

  /** A piece is its name, and then a semicolon and a parameter, if there is one. */
  lemma PieceIsRead(parse: Parser, a: string, name: string, parameter: string)
    requires Blanks(a) && PlainName(name) && (parameter == "" || parameter[0] == ';')
    ensures ElementOf(parse, a + (name + parameter))
         == var w := if parameter == "" then 1.0 else WeightOf(parse, parameter[1..]);
            if w == 0.0 then [] else [Element(name, w)]
  {
    var s := name + parameter;
    assert s[0] == name[0];
    BlanksSkipped(a, s);
    IndexOfUnique(s, ';', |name|);
    assert s[..|name|] == name;
    if parameter != "" {
      assert s[|name| + 1..] == parameter[1..];
    }
    TrimKept(name, IsSpace);
  }

  /** A name with its weight, and the blanks around them. */
  datatype Weighted = Weighted(
    front: string, name: string, before: string, q: char, after: string, digits: string, back: string)

  ghost predicate Writable(x: Weighted)
  {
    && Blanks(x.front) && PlainName(x.name) && Blanks(x.before) && (x.q == 'q' || x.q == 'Q') && Blanks(x.after)
    && PlainWeight(x.digits) && Blanks(x.back)
  }

  function Written(x: Weighted): string
  {
    x.front + (x.name + (";" + (x.before + ([x.q, '='] + (x.after + (x.digits + x.back))))))
  }

  function WrittenAll(xs: seq<Weighted>): string
    requires xs != []
  {
    if |xs| == 1 then Written(xs[0]) else Written(xs[0]) + ([','] + WrittenAll(xs[1..]))
  }

  /** What a list of names and weights stands for. */
  function Meant(parse: Parser, xs: seq<Weighted>): seq<Element>
  {
    if xs == [] then [] else MeantBy(parse, xs[0]) + Meant(parse, xs[1..])
  }

  /** A weight that does not parse counts as 1, and an element with weight 0 as none. */
  function MeantBy(parse: Parser, x: Weighted): seq<Element>
  {
    match parse(x.digits)
    case None => [Element(x.name, 1.0)]
    case Some(w) => if w == 0.0 then [] else [Element(x.name, w)]
  }

  lemma WrittenIsRead(parse: Parser, x: Weighted)
    requires Writable(x)
    ensures ElementOf(parse, Written(x)) == MeantBy(parse, x)
  {
    var p := x.before + ([x.q, '='] + (x.after + (x.digits + x.back)));
    var parameter := ";" + p;
    assert parameter[1..] == p;
    WeightIsRead(parse, x.before, x.q, x.after, x.digits, x.back);
    PieceIsRead(parse, x.front, x.name, parameter);
  }

  lemma WrittenHasNoComma(x: Weighted)
    requires Writable(x)
    ensures Without(Written(x), ',')
  {
  }

  /** A header is read as the names and weights that it was written from, in their order. */
  lemma {:induction false} HeaderIsRead(parse: Parser, xs: seq<Weighted>)
    requires xs != [] && forall i :: 0 <= i < |xs| ==> Writable(xs[i])
    ensures Elements(parse, WrittenAll(xs)) == Meant(parse, xs)
  {
    var x := xs[0];
    WrittenIsRead(parse, x);
    WrittenHasNoComma(x);
    if |xs| == 1 {
      SplitAt(Written(x), ',', "");
      ElementsOfCons(parse, Written(x), []);
      assert xs[1..] == [] && [Written(x)] + [] == [Written(x)];
    } else {
      SplitAt(Written(x), ',', WrittenAll(xs[1..]));
      ElementsOfCons(parse, Written(x), Split(WrittenAll(xs[1..]), ','));
      HeaderIsRead(parse, xs[1..]);
    }
  }

  /** `gzip;q=x, br;q=y` with 0 < y < x is answered with gzip, and with equal weights with brotli. */
  lemma WeightsDecide(parse: Parser, gzip: Weighted, br: Weighted)
    requires Writable(gzip) && gzip.name == "gzip" && Writable(br) && br.name == "br"
    requires parse(gzip.digits).Some? && parse(gzip.digits).value > 0.0
    requires parse(br.digits).Some? && parse(br.digits).value > 0.0
    ensures ChooseAll(START, Elements(parse, WrittenAll([gzip, br])))
         == var x, y := parse(gzip.digits).value, parse(br.digits).value;
            if y < x then Choice(Gzip, x) else Choice(Brotli, y)
  {
    var x, y := parse(gzip.digits).value, parse(br.digits).value;
    HeaderIsRead(parse, [gzip, br]);
    var es := [Element("gzip", x), Element("br", y)];
    assert [gzip, br][1..] == [br] && [br][1..] == [];
    assert Meant(parse, [br]) == [Element("br", y)];
    assert Meant(parse, [gzip, br]) == es;
    assert IsGzip("gzip") && !IsBrotli("gzip") && IsBrotli("br") && !IsGzip("br");
    assert es == [es[0]] + [es[1]];
    ChooseAppend(START, [es[0]], [es[1]]);
    ChooseOne(START, es[0]);
    ChooseOne(Choice(Gzip, x), es[1]);
  }

  // ----- What the choice means -----

  /** An element that can change the choice. */
  ghost predicate Counts(e: Element)
  {
    (IsBrotli(e.name) || IsGzip(e.name) || e.name == "*") && e.quality > START.quality
  }

  ghost predicate CountsAt(es: seq<Element>, i: int, q: real)
  {
    0 <= i < |es| && Counts(es[i]) && es[i].quality == q
  }

  ghost predicate BrotliAt(es: seq<Element>, q: real)
  {
    exists i :: CountsAt(es, i, q) && IsBrotli(es[i].name)
  }

  ghost predicate FirstAt(es: seq<Element>, i: int, q: real)
  {
    CountsAt(es, i, q) && forall j :: 0 <= j < i ==> !CountsAt(es, j, q)
  }

  ghost predicate WildcardFirst(es: seq<Element>, q: real)
  {
    exists i :: FirstAt(es, i, q) && es[i].name == "*"
  }

  /** `q` is the greatest weight of the elements that count. */
  ghost predicate Greatest(es: seq<Element>, q: real)
  {
    (exists i :: CountsAt(es, i, q)) && forall i :: 0 <= i < |es| && Counts(es[i]) ==> es[i].quality <= q
  }

  /** The choice by itself, without a scan: identity when nothing counts, otherwise the greatest
      weight, and brotli exactly when it has that weight or a wildcard is the first to have it. */
  ghost predicate Best(es: seq<Element>, c: Choice)
  {
    if c.coding == Identity then c == START && forall i :: 0 <= i < |es| ==> !Counts(es[i])
    else Greatest(es, c.quality) && (c.coding == Brotli <==> BrotliAt(es, c.quality) || WildcardFirst(es, c.quality))
  }

  lemma {:induction false} ChoiceIsBest(es: seq<Element>)
    ensures Best(es, ChooseAll(START, es))
    decreases |es|
  {
    if es != [] {
      var n := |es| - 1;
      var init, e := es[..n], es[n];
      ChoiceIsBest(init);
      assert es == init + [e];
      ChooseAppend(START, init, [e]);
      ChooseOne(ChooseAll(START, init), e);
      BestStep(init, ChooseAll(START, init), e);
    }
  }

  lemma BestStep(es: seq<Element>, c: Choice, e: Element)
    requires Best(es, c)
    ensures Best(es + [e], Choose(c, e))
  {
    var es', d := es + [e], Choose(c, e);
    assert forall i, q :: i < |es| ==> (CountsAt(es', i, q) <==> CountsAt(es, i, q));
    assert forall q :: CountsAt(es', |es|, q) <==> Counts(e) && e.quality == q;
    if d == c {
      if c.coding != Identity {
        Carry(es, e, c.quality);
      }
    } else {
      var i := |es|;
      assert CountsAt(es', i, d.quality);
      assert Greatest(es', d.quality);
      if c.coding != Identity && d.quality == c.quality {
        assert BrotliAt(es', d.quality);
      } else {
        assert FirstAt(es', i, d.quality);
      }
    }
  }

  /** Adding an element that does not beat weight `q` keeps what is known about `q`. */
  lemma Carry(es: seq<Element>, e: Element, q: real)
    requires Greatest(es, q) && (Counts(e) ==> e.quality <= q)
    requires CountsAt([e], 0, q) && IsBrotli(e.name) ==> BrotliAt(es, q) || WildcardFirst(es, q)
    ensures Greatest(es + [e], q)
    ensures BrotliAt(es + [e], q) || WildcardFirst(es + [e], q) <==> BrotliAt(es, q) || WildcardFirst(es, q)
  {
    var es' := es + [e];
    assert forall i :: i < |es| ==> (CountsAt(es', i, q) <==> CountsAt(es, i, q));
    var i :| CountsAt(es, i, q);
    assert CountsAt(es', i, q);
    if k :| CountsAt(es, k, q) && IsBrotli(es[k].name) { assert CountsAt(es', k, q); }
    if k :| FirstAt(es, k, q) && es[k].name == "*" { assert FirstAt(es', k, q); }
    if k :| CountsAt(es', k, q) && IsBrotli(es'[k].name) {
      assert k < |es| ==> CountsAt(es, k, q);
    }
    if k :| FirstAt(es', k, q) && es'[k].name == "*" {
      assert k <= i;
      assert FirstAt(es, k, q);
    }
  }

  lemma BestIsUnique(es: seq<Element>, c: Choice, d: Choice)
    requires Best(es, c) && Best(es, d)
    ensures c == d
  {
    if c.coding != Identity && d.coding != Identity {
      var i :| CountsAt(es, i, c.quality);
      var j :| CountsAt(es, j, d.quality);
    }
  }

  /** The scan returns the best choice and nothing else. */
  lemma NegotiationMeaning(parse: Parser, header: string, c: Choice)
    ensures ChooseAll(START, Elements(parse, header)) == c <==> Best(Elements(parse, header), c)
  {
    var es := Elements(parse, header);
    ChoiceIsBest(es);
    if Best(es, c) {
      BestIsUnique(es, c, ChooseAll(START, es));
    }
  }

  // ----- Order -----

  ghost predicate SameElements(es: seq<Element>, fs: seq<Element>)
  {
    forall e :: e in es <==> e in fs
  }

  /** A wildcard and gzip share the greatest weight, and no brotli element has it. */
  ghost predicate WildcardTie(es: seq<Element>, q: real)
  {
    && Greatest(es, q) && !BrotliAt(es, q)
    && (exists i :: CountsAt(es, i, q) && es[i].name == "*")
    && (exists i :: CountsAt(es, i, q) && IsGzip(es[i].name))
  }

  lemma SameElementsSameFacts(es: seq<Element>, fs: seq<Element>, q: real)
    requires SameElements(es, fs)
    ensures Greatest(es, q) ==> Greatest(fs, q)
    ensures BrotliAt(es, q) ==> BrotliAt(fs, q)
  {
    assert forall i :: 0 <= i < |fs| ==> fs[i] in es;
    if i :| CountsAt(es, i, q) {
      assert es[i] in fs;
      var j :| 0 <= j < |fs| && fs[j] == es[i];
      assert CountsAt(fs, j, q);
    }
    if i :| CountsAt(es, i, q) && IsBrotli(es[i].name) {
      assert es[i] in fs;
      var j :| 0 <= j < |fs| && fs[j] == es[i];
      assert CountsAt(fs, j, q);
    }
  }

  /** Order and repetition of the elements do not matter, but for a tie of gzip with a wildcard. */
  lemma OrderIsIrrelevant(es: seq<Element>, fs: seq<Element>)
    requires SameElements(es, fs)
    requires forall q :: !WildcardTie(es, q)
    ensures ChooseAll(START, es) == ChooseAll(START, fs)
  {
    var c := ChooseAll(START, es);
    ChoiceIsBest(es);
    ChoiceIsBest(fs);
    if c.coding == Identity {
      forall i | 0 <= i < |fs|
        ensures !Counts(fs[i])
      {
        assert fs[i] in es;
      }
    } else {
      var q := c.quality;
      SameElementsSameFacts(es, fs, q);
      SameElementsSameFacts(fs, es, q);
      assert !WildcardTie(es, q);
      FirstIsUntied(es, fs, q);
      FirstIsUntied(fs, es, q);
    }
    BestIsUnique(fs, ChooseAll(START, fs), c);
  }

  lemma FirstIsUntied(es: seq<Element>, fs: seq<Element>, q: real)
    requires SameElements(es, fs) && Greatest(es, q) && Greatest(fs, q)
    requires !WildcardTie(es, q) || !WildcardTie(fs, q)
    ensures WildcardFirst(es, q) ==> BrotliAt(fs, q) || WildcardFirst(fs, q)
  {
    if !BrotliAt(fs, q) {
      if i :| FirstAt(es, i, q) && es[i].name == "*" {
        var k := FirstIndex(fs, q);
        assert es[i] in fs && fs[k] in es;
        var j :| 0 <= j < |fs| && fs[j] == es[i];
        assert CountsAt(fs, j, q);
        var l :| 0 <= l < |es| && es[l] == fs[k];
        assert CountsAt(es, l, q);
        SameElementsSameFacts(es, fs, q);
      }
    }
  }

  lemma FirstIndex(es: seq<Element>, q: real) returns (i: int)
    requires exists k :: CountsAt(es, k, q)
    ensures FirstAt(es, i, q)
  {
    i :| CountsAt(es, i, q);
    if !FirstAt(es, i, q) {
      var j :| 0 <= j < i && CountsAt(es, j, q);
      assert CountsAt(es[..i], j, q);
      var k := FirstIndex(es[..i], q);
      assert forall m :: m < i ==> (CountsAt(es, m, q) <==> CountsAt(es[..i], m, q));
      i := k;
    }
  }

  /** With such a tie the order does matter: the element listed first decides. */
  lemma TieIsOrderDependent(es: seq<Element>, q: real)
    requires WildcardTie(es, q)
    ensures exists fs :: multiset(fs) == multiset(es) && ChooseAll(START, fs) != ChooseAll(START, es)
  {
    var i :| CountsAt(es, i, q) && es[i].name == "*";
    var j :| CountsAt(es, j, q) && IsGzip(es[j].name);
    var a := ToFront(es, i);
    var b := ToFront(es, j);
    TieFront(es, a, q);
    TieFront(es, b, q);
    assert ChooseAll(START, a).coding == Brotli && ChooseAll(START, b).coding == Gzip;
  }

  lemma ToFront(es: seq<Element>, i: nat) returns (fs: seq<Element>)
    requires i < |es|
    ensures multiset(fs) == multiset(es) && fs != [] && fs[0] == es[i] && SameElements(es, fs)
  {
    fs := [es[i]] + es[..i] + es[i + 1..];
    assert es == es[..i] + [es[i]] + es[i + 1..];
    forall e
      ensures e in es <==> e in fs
    {
      assert e in es <==> e in multiset(es);
      assert e in fs <==> e in multiset(fs);
    }
  }

  lemma TieFront(es: seq<Element>, fs: seq<Element>, q: real)
    requires WildcardTie(es, q) && SameElements(es, fs) && CountsAt(fs, 0, q)
    requires fs[0].name == "*" || IsGzip(fs[0].name)
    ensures ChooseAll(START, fs) == Choice(if fs[0].name == "*" then Brotli else Gzip, q)
  {
    SameElementsSameFacts(es, fs, q);
    SameElementsSameFacts(fs, es, q);
    assert FirstAt(fs, 0, q);
    assert forall i :: FirstAt(fs, i, q) ==> i == 0;
    ChoiceIsBest(fs);
    BestIsUnique(fs, ChooseAll(START, fs), Choice(if fs[0].name == "*" then Brotli else Gzip, q));
  }

  // ----- Refusals -----

  lemma {:induction false} ElementsOfAppend(parse: Parser, a: seq<string>, b: seq<string>)
    ensures ElementsOf(parse, a + b) == ElementsOf(parse, a) + ElementsOf(parse, b)
  {
    if a == [] {
      assert a + b == b;
    } else {
      assert (a + b)[1..] == a[1..] + b;
      ElementsOfAppend(parse, a[1..], b);
    }
  }

  /** Whatever a weight of 0 refuses is forgotten: without the refusal the choice is the same.
      So a coding that the header refuses is still chosen when a wildcard stands for it. */
  lemma RefusalIsForgotten(parse: Parser, a: seq<string>, refusal: string, b: seq<string>)
    requires ElementOf(parse, refusal) == []
    ensures ChooseAll(START, ElementsOf(parse, a + [refusal] + b)) == ChooseAll(START, ElementsOf(parse, a + b))
  {
    ElementsOfAppend(parse, a, b);
    ElementsOfAppend(parse, a + [refusal], b);
    ElementsOfAppend(parse, a, [refusal]);
    assert ElementsOf(parse, [refusal]) == [];
    assert ElementsOf(parse, a) + [] == ElementsOf(parse, a);
  }

  lemma RefusedBrotli(parse: Parser)
    requires parse("0") == Some(0.0)
    ensures ElementOf(parse, "br;q=0") == []
  {
    var piece, q := "br;q=0", "q=0";
    IndexOfUnique(piece, ';', 2);
    assert piece[3..] == q && q[2..] == "0" && "0"[1..] == "";
    assert SkipBlanks(piece) == piece && SkipBlanks(q) == q;
    assert UntilBlank("0") == ['0'] + UntilBlank("") == "0";
    assert WeightOf(parse, q) == 0.0;
  }

  lemma LoneWildcard(parse: Parser)
    ensures ElementOf(parse, "*") == [Element("*", 1.0)]
  {
    var piece := "*";
    IndexOfUnique(piece, ';', 1);
    assert SkipBlanks(piece) == piece && piece[..1] == piece;
    TrimKept(piece, IsSpace);
    assert ElementOf(parse, piece) == [Element(piece, 1.0)];
  }

  /** Every element that names brotli is refused. */
  ghost predicate AcceptsNoBrotli(parse: Parser, header: string)
  {
    forall p :: p in Split(header, ',') && IsBrotli(NameOf(p)) ==> ElementOf(parse, p) == []
  }

  ghost predicate AcceptsNoGzip(parse: Parser, header: string)
  {
    forall p :: p in Split(header, ',') && IsGzip(NameOf(p)) ==> ElementOf(parse, p) == []
  }

  /** A wildcard is the first element to have the greatest weight. */
  ghost predicate WildcardWins(es: seq<Element>)
  {
    exists q :: Greatest(es, q) && WildcardFirst(es, q)
  }

  lemma {:induction false} ElementComesFrom(parse: Parser, pieces: seq<string>, i: nat) returns (p: string)
    requires i < |ElementsOf(parse, pieces)|
    ensures p in pieces && ElementOf(parse, p) != [] && NameOf(p) == ElementsOf(parse, pieces)[i].name
  {
    var first := ElementOf(parse, pieces[0]);
    if i < |first| {
      p := pieces[0];
    } else {
      p := ElementComesFrom(parse, pieces[1..], i - |first|);
    }
  }

  lemma {:induction false} WithoutBrotli(es: seq<Element>)
    requires forall i :: 0 <= i < |es| ==> !IsBrotli(es[i].name)
    ensures ChooseAll(START, es).coding == Brotli <==> WildcardWins(es)
  {
    var c := ChooseAll(START, es);
    ChoiceIsBest(es);
    if q :| Greatest(es, q) && WildcardFirst(es, q) {
      var i :| CountsAt(es, i, q);
      assert Counts(es[i]);
      assert Greatest(es, c.quality);
      var j :| CountsAt(es, j, c.quality);
    }
  }

  lemma {:induction false} WithoutGzip(es: seq<Element>)
    requires forall i :: 0 <= i < |es| ==> !IsGzip(es[i].name)
    ensures ChooseAll(START, es).coding != Gzip
  {
    var c := ChooseAll(START, es);
    ChoiceIsBest(es);
    if c.coding == Gzip {
      var i := FirstIndex(es, c.quality);
      FirstSpeaksForBrotli(es, i, c.quality);
    }
  }

  lemma FirstSpeaksForBrotli(es: seq<Element>, i: int, q: real)
    requires FirstAt(es, i, q) && !IsGzip(es[i].name)
    ensures BrotliAt(es, q) || WildcardFirst(es, q)
  {
  }

  /** Section 12.5.3 of RFC 9110 lets "*" match only codings that are not listed. Here a header that
      refuses brotli gets it nevertheless exactly when a wildcard is the first to have the greatest weight. */
  lemma {:induction false} RefusedBrotliIsChosenExactly(parse: Parser, header: string)
    requires AcceptsNoBrotli(parse, header)
    ensures ChooseAll(START, Elements(parse, header)).coding == Brotli <==> WildcardWins(Elements(parse, header))
  {
    var es := Elements(parse, header);
    forall i | 0 <= i < |es|
      ensures !IsBrotli(es[i].name)
    {
      var p := ElementComesFrom(parse, Split(header, ','), i);
    }
    WithoutBrotli(es);
  }

  /** A refused gzip stays refused. */
  lemma {:induction false} RefusedGzipIsNeverChosen(parse: Parser, header: string)
    requires AcceptsNoGzip(parse, header)
    ensures ChooseAll(START, Elements(parse, header)).coding != Gzip
  {
    var es := Elements(parse, header);
    forall i | 0 <= i < |es|
      ensures !IsGzip(es[i].name)
    {
      var p := ElementComesFrom(parse, Split(header, ','), i);
    }
    WithoutGzip(es);
  }

  /** A refusal at the front of a header adds nothing to it. */
  lemma {:induction false} RefusalInFront(parse: Parser, refusal: string, rest: string)
    requires Without(refusal, ',') && ElementOf(parse, refusal) == []
    ensures Elements(parse, refusal + ([','] + rest)) == Elements(parse, rest)
    ensures AcceptsNoBrotli(parse, rest) ==> AcceptsNoBrotli(parse, refusal + ([','] + rest))
  {
    SplitAt(refusal, ',', rest);
    ElementsOfCons(parse, refusal, Split(rest, ','));
  }

  lemma {:induction false} SpacedWildcard(parse: Parser, star: string)
    requires star == " *"
    ensures Elements(parse, star) == [Element("*", 1.0)] && AcceptsNoBrotli(parse, star)
  {
    var name := star[1..];
    assert name == "*";
    IndexOfUnique(star, ',', 2);
    SplitLast(star, ',');
    ElementsOfLast(parse, star);
    BlankIgnored(parse, star);
    LoneWildcard(parse);
    WildcardName();
    assert SkipBlanks(star) == SkipBlanks(name);
  }

  lemma {:induction false} RefusalThenWildcard(parse: Parser, refusal: string, star: string)
    requires Without(refusal, ',') && ElementOf(parse, refusal) == []
    requires Elements(parse, star) == [Element("*", 1.0)] && AcceptsNoBrotli(parse, star)
    ensures var header := refusal + ([','] + star);
      AcceptsNoBrotli(parse, header) && ChooseAll(START, Elements(parse, header)) == Choice(Brotli, 1.0)
  {
    RefusalInFront(parse, refusal, star);
    ChooseOne(START, Element("*", 1.0));
  }

  const REFUSAL := "br;q=0"

  const HEADER := "br;q=0, *"

  lemma RefusalFacts(parse: Parser)
    requires parse("0") == Some(0.0)
    ensures Without(REFUSAL, ',') && IsBrotli(NameOf(REFUSAL)) && ElementOf(parse, REFUSAL) == []
    ensures HEADER == REFUSAL + ([','] + " *")
  {
    RefusedBrotli(parse);
    IndexOfUnique(REFUSAL, ';', 2);
    assert SkipBlanks(REFUSAL) == REFUSAL && REFUSAL[..2] == "br";
    TrimKept("br", IsSpace);
  }

  /** The header `br;q=0, *` refuses brotli and is answered with it. */
  lemma WildcardOverridesRefusal(parse: Parser)
    requires parse("0") == Some(0.0)
    ensures exists p :: p in Split(HEADER, ',') && IsBrotli(NameOf(p)) && ElementOf(parse, p) == []
    ensures AcceptsNoBrotli(parse, HEADER) && ChooseAll(START, Elements(parse, HEADER)) == Choice(Brotli, 1.0)
  {
    RefusalFacts(parse);
    SplitAt(REFUSAL, ',', " *");
    assert REFUSAL in Split(HEADER, ',');
    SpacedWildcard(parse, " *");
    RefusalThenWildcard(parse, REFUSAL, " *");
  }

  lemma WildcardName()
    ensures NameOf("*") == "*"
  {
    var piece := "*";
    IndexOfUnique(piece, ';', 1);
    assert SkipBlanks(piece) == piece && piece[..1] == piece;
    TrimKept(piece, IsSpace);
  }
}
