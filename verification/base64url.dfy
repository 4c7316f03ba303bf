/**
 base64.RawURLEncoding of Go: the URL-safe alphabet of RFC 4648 section 5, without the
 padding of section 3.2. A byte string is a Dafny string of characters below 256.
 */
module Base64Url {
  import opened Wrappers

  type Byte = n: int | 0 <= n < 256
  type Sextet = n: int | 0 <= n < 64

  ghost predicate IsBytes(s: string) {
    forall i :: 0 <= i < |s| ==> s[i] as int < 256
  }

  // ---- The alphabet ----

  function Symbol(n: Sextet): (c: char) {
    if n < 26 then (n + 65) as char
    else if n < 52 then (n - 26 + 97) as char
    else if n < 62 then (n - 52 + 48) as char
    else if n == 62 then '-' else '_'
  }

  function Read(c: char): (n: Option<Sextet>)
    ensures n.Some? ==> Symbol(n.value) == c
  {
    if 'A' <= c <= 'Z' then Some(c as int - 65)
    else if 'a' <= c <= 'z' then Some(c as int - 97 + 26)
    else if '0' <= c <= '9' then Some(c as int - 48 + 52)
    else if c == '-' then Some(62)
    else if c == '_' then Some(63)
    else None
  }

  lemma ReadSymbol(n: Sextet)
    ensures Read(Symbol(n)) == Some(n)
  {
  }

  /** Table 2 of RFC 4648: the letters and the digits in order, then the two safe symbols. */
  lemma SymbolIs(n: Sextet)
    ensures Symbol(0) == 'A' && Symbol(26) == 'a' && Symbol(52) == '0' && Symbol(62) == '-' && Symbol(63) == '_'
    ensures n < 61 && n != 25 && n != 51 ==> Symbol(n + 1) as int == Symbol(n) as int + 1
  {
  }

  // ---- The bits ----

  function Bits1(a: Byte): Sextet { a / 4 }
  function Bits2(a: Byte, b: Byte): Sextet { a % 4 * 16 + b / 16 }
  function Bits3(b: Byte, c: Byte): Sextet { b % 16 * 4 + c / 64 }
  function Bits4(c: Byte): Sextet { c % 64 }

  function Byte1(p: Sextet, q: Sextet): Byte { p * 4 + q / 16 }
  function Byte2(q: Sextet, u: Sextet): Byte { q % 16 * 16 + u / 4 }
  function Byte3(u: Sextet, v: Sextet): Byte { u % 4 * 64 + v }

  /** Four sextets carry the three bytes they were made of. */
  lemma BytesBack(a: Byte, b: Byte, c: Byte)
    ensures Byte1(Bits1(a), Bits2(a, b)) == a
    ensures Byte2(Bits2(a, b), Bits3(b, c)) == b
    ensures Byte3(Bits3(b, c), Bits4(c)) == c
  {
  }

  /** The sextets are the 24 bits of the three bytes, six at a time, most significant first. */
  lemma GroupIsRegrouped(a: Byte, b: Byte, c: Byte)
    ensures Bits1(a) * 0x40000 + Bits2(a, b) * 0x1000 + Bits3(b, c) * 0x40 + Bits4(c) == a * 0x10000 + b * 0x100 + c
  {
  }

  /** Three bytes carry the four sextets they were made of; fewer bytes lose the leftover bits. */
  lemma SextetsBack(p: Sextet, q: Sextet, u: Sextet, v: Sextet)
    ensures Bits1(Byte1(p, q)) == p
    ensures Bits2(Byte1(p, q), Byte2(q, u)) == q
    ensures Bits3(Byte2(q, u), Byte3(u, v)) == u
    ensures Bits4(Byte3(u, v)) == v
    ensures Bits2(Byte1(p, q), 0) == q <==> q % 16 == 0
    ensures Bits3(Byte2(q, u), 0) == u <==> u % 4 == 0
  {
  }

  // ---- The code ----

  function BytesOf(s: string): (b: seq<Byte>)
    requires IsBytes(s)
    ensures |b| == |s|
  {
    seq(|s|, i requires 0 <= i < |s| => s[i] as int)
  }

  function StringOf(b: seq<Byte>): (s: string)
    ensures |s| == |b| && IsBytes(s)
  {
    seq(|b|, i requires 0 <= i < |b| => b[i] as char)
  }

  /** Three bytes make four sextets; one or two bytes left over make two or three. */
  function Split(b: seq<Byte>): seq<Sextet> {
    if b == [] then []
    else if |b| == 1 then [Bits1(b[0]), Bits2(b[0], 0)]
    else if |b| == 2 then [Bits1(b[0]), Bits2(b[0], b[1]), Bits3(b[1], 0)]
    else [Bits1(b[0]), Bits2(b[0], b[1]), Bits3(b[1], b[2]), Bits4(b[2])] + Split(b[3..])
  }

  function Symbols(x: seq<Sextet>): (s: string)
    ensures |s| == |x|
  {
    seq(|x|, i requires 0 <= i < |x| => Symbol(x[i]))
  }

  function Encode(s: string): string
    requires IsBytes(s)
  {
    Symbols(Split(BytesOf(s)))
  }

  /** The decoder skips line ends. */
  function StripNewlines(s: string): string {
    if s == "" then ""
    else (if s[0] == '\r' || s[0] == '\n' then "" else [s[0]]) + StripNewlines(s[1..])
  }

  function ReadAll(s: string): (r: Option<seq<Sextet>>)
    ensures r.Some? ==> |r.value| == |s|
  {
    if s == "" then Some([])
    else if Read(s[0]).None? || ReadAll(s[1..]).None? then None
    else Some([Read(s[0]).value] + ReadAll(s[1..]).value)
  }

  /** Groups of four, the last one possibly of two or three. */
  predicate Grouped(x: seq<Sextet>) {
    if |x| >= 4 then Grouped(x[4..]) else |x| != 1
  }

  /** Four sextets make three bytes; leftover bits are ignored. */
  function Join(x: seq<Sextet>): seq<Byte>
    requires Grouped(x)
  {
    if x == [] then []
    else if |x| == 2 then [Byte1(x[0], x[1])]
    else if |x| == 3 then [Byte1(x[0], x[1]), Byte2(x[1], x[2])]
    else [Byte1(x[0], x[1]), Byte2(x[1], x[2]), Byte3(x[2], x[3])] + Join(x[4..])
  }

  /** A symbol outside the alphabet, or a single symbol left over, is refused. */
  function Decode(s: string): Option<string> {
    match ReadAll(StripNewlines(s))
    case None => None
    case Some(x) => if Grouped(x) then Some(StringOf(Join(x))) else None
  }

  /** Line ends are skipped wherever they stand. */
  lemma {:induction false} LineEndsDoNotMatter(s: string, end: string, t: string)
    requires forall i :: 0 <= i < |end| ==> end[i] as int in {10, 13}
    ensures Decode(s + end + t) == Decode(s + t)
  {
    StripSkips(s, end, t);
  }

  lemma {:induction false} StripSkips(s: string, end: string, t: string)
    requires forall i :: 0 <= i < |end| ==> end[i] as int in {10, 13}
    ensures StripNewlines(s + end + t) == StripNewlines(s + t)
    decreases |s|, |end|
  {
    if s != "" {
      assert (s + end + t)[1..] == s[1..] + end + t && (s + t)[1..] == s[1..] + t;
      StripSkips(s[1..], end, t);
    } else if end != "" {
      assert s + end + t == end + t && s + t == t;
      assert (end + t)[1..] == end[1..] + t && "" + end[1..] + t == end[1..] + t;
      assert end[0] == '\n' || end[0] == '\r';
      StripSkips("", end[1..], t);
    } else {
      assert s + end + t == s + t;
    }
  }

  // ---- Decoding undoes encoding ----

  lemma StringOfBytes(s: string)
    requires IsBytes(s)
    ensures StringOf(BytesOf(s)) == s
  {
  }

  lemma BytesOfString(b: seq<Byte>)
    ensures BytesOf(StringOf(b)) == b
  {
  }

  lemma {:induction false} ReadAllSymbols(x: seq<Sextet>)
    ensures ReadAll(Symbols(x)) == Some(x)
    ensures StripNewlines(Symbols(x)) == Symbols(x)
  {
    if x != [] {
      assert Symbols(x)[1..] == Symbols(x[1..]);
      ReadAllSymbols(x[1..]);
      ReadSymbol(x[0]);
      assert Symbols(x) == [Symbol(x[0])] + Symbols(x[1..]);
      assert x == [x[0]] + x[1..];
    }
  }

  lemma JoinGroup(p: Sextet, q: Sextet, u: Sextet, v: Sextet, rest: seq<Sextet>)
    requires Grouped(rest)
    ensures Grouped([p, q, u, v] + rest)
    ensures Join([p, q, u, v] + rest) == [Byte1(p, q), Byte2(q, u), Byte3(u, v)] + Join(rest)
  {
    hide Byte1;
    hide Byte2;
    hide Byte3;
    assert ([p, q, u, v] + rest)[4..] == rest;
  }

  lemma {:induction false} JoinUndoesSplit(b: seq<Byte>)
    ensures Grouped(Split(b)) && Join(Split(b)) == b
  {
    if |b| >= 3 {
      JoinUndoesSplit(b[3..]);
      JoinGroup(Bits1(b[0]), Bits2(b[0], b[1]), Bits3(b[1], b[2]), Bits4(b[2]), Split(b[3..]));
      BytesBack(b[0], b[1], b[2]);
      hide Grouped;
      hide Join;
      hide Bits1;
      hide Bits2;
      hide Bits3;
      hide Bits4;
      hide Byte1;
      hide Byte2;
      hide Byte3;
      assert b == [b[0], b[1], b[2]] + b[3..];
    } else if |b| == 2 {
      JoinTail(Bits1(b[0]), Bits2(b[0], b[1]), Bits3(b[1], 0));
      BytesBack(b[0], b[1], 0);
      TwoBytes(b);
      hide *;
    } else if |b| == 1 {
      JoinTail(Bits1(b[0]), Bits2(b[0], 0), 0);
      BytesBack(b[0], 0, 0);
      OneByte(b);
      hide *;
    }
  }

  lemma OneByte(b: seq<Byte>)
    requires |b| == 1
    ensures b == [b[0]] && Split(b) == [Bits1(b[0]), Bits2(b[0], 0)]
  {
    hide Bits1;
    hide Bits2;
  }

  lemma TwoBytes(b: seq<Byte>)
    requires |b| == 2
    ensures b == [b[0], b[1]] && Split(b) == [Bits1(b[0]), Bits2(b[0], b[1]), Bits3(b[1], 0)]
  {
    hide Bits1;
    hide Bits2;
    hide Bits3;
  }

  lemma JoinTail(p: Sextet, q: Sextet, u: Sextet)
    ensures Grouped([p, q]) && Join([p, q]) == [Byte1(p, q)]
    ensures Grouped([p, q, u]) && Join([p, q, u]) == [Byte1(p, q), Byte2(q, u)]
  {
    hide Byte1;
    hide Byte2;
  }

  /** Decoding undoes encoding, for every byte string. */
  lemma DecodeUndoesEncode(s: string)
    requires IsBytes(s)
    ensures Decode(Encode(s)) == Some(s)
  {
    ReadAllSymbols(Split(BytesOf(s)));
    JoinUndoesSplit(BytesOf(s));
    StringOfBytes(s);
  }

  // ---- Which texts are encodings ----

  /** Whether the bits that a shorter last group leaves over are zero. */
  predicate ZeroLeftover(x: seq<Sextet>) {
    if |x| >= 4 then ZeroLeftover(x[4..])
    else if |x| == 3 then x[2] % 4 == 0
    else if |x| == 2 then x[1] % 16 == 0
    else true
  }

  lemma {:induction false} SplitUndoesJoinIff(x: seq<Sextet>)
    requires Grouped(x)
    ensures Split(Join(x)) == x <==> ZeroLeftover(x)
  {
    if x != [] {
      SextetsBack(x[0], x[1], if |x| > 2 then x[2] else 0, if |x| > 3 then x[3] else 0);
      hide Bits1;
      hide Bits2;
      hide Bits3;
      hide Bits4;
      hide Byte1;
      hide Byte2;
      hide Byte3;
      if |x| >= 4 {
        SplitUndoesJoinIff(x[4..]);
        assert Join(x)[3..] == Join(x[4..]);
        assert x == x[..4] + x[4..];
        assert Split(Join(x)) == x[..4] + Split(Join(x[4..]));
        SameTail(x[..4], Split(Join(x[4..])), x[4..]);
      } else if |x| == 3 {
        assert Split(Join(x)) == [x[0], x[1], Bits3(Byte2(x[1], x[2]), 0)];
        assert x == [x[0], x[1], x[2]];
      } else {
        assert Split(Join(x)) == [x[0], Bits2(Byte1(x[0], x[1]), 0)];
        assert x == [x[0], x[1]];
      }
    }
  }

  lemma SameTail(head: seq<Sextet>, tail: seq<Sextet>, tail': seq<Sextet>)
    ensures head + tail == head + tail' <==> tail == tail'
  {
    assert (head + tail)[|head|..] == tail && (head + tail')[|head|..] == tail';
  }

  lemma {:induction false} SymbolsOfRead(s: string)
    requires ReadAll(s).Some?
    ensures Symbols(ReadAll(s).value) == s
  {
    if s != "" {
      SymbolsOfRead(s[1..]);
      assert s == [s[0]] + s[1..];
    }
  }

  /**
   Which texts are the encoding of what they decode to: exactly those without line
   ends and with zero leftover bits. The decoder accepts the others too, so several
   texts may name one byte string.
   */
  lemma DecodedIsEncodedIff(s: string)
    requires Decode(s).Some?
    ensures IsBytes(Decode(s).value)
    ensures Encode(Decode(s).value) == s <==> StripNewlines(s) == s && ZeroLeftover(ReadAll(StripNewlines(s)).value)
  {
    var x := ReadAll(StripNewlines(s)).value;
    SplitUndoesJoinIff(x);
    BytesOfString(Join(x));
    ReadAllSymbols(Split(Join(x)));
    SymbolsOfRead(StripNewlines(s));
  }
}
