/**
  The standard base64 encoding of section 4 of RFC 4648: the alphabet `A-Z a-z 0-9 + /`,
  three bytes to four symbols, and `=` padding that brings every encoding to a multiple of
  four characters. This is the text-safe layer of the dashboard template token.
*/
module Base64 {
  import opened Wrappers

  /** Go's `byte`: an unsigned eight-bit value. */
  newtype byte = x: int | 0 <= x < 256

  /** The padding character of section 3.2 of RFC 4648. */
  const Padding: char := '='

  /** The 64 symbols of the alphabet of Table 1 in RFC 4648. */
  predicate IsSymbol(c: char) {
    ('A' <= c <= 'Z') || ('a' <= c <= 'z') || ('0' <= c <= '9') || c == '+' || c == '/'
  }

  /** The symbol that stands for a 6-bit value. */
  function Symbol(v: int): (c: char)
    requires 0 <= v < 64
    ensures IsSymbol(c)
  {
    if v < 26 then ('A' as int + v) as char
    else if v < 52 then ('a' as int + (v - 26)) as char
    else if v < 62 then ('0' as int + (v - 52)) as char
    else if v == 62 then '+'
    else '/'
  }

  /** The 6-bit value a symbol stands for. */
  function SymbolValue(c: char): (v: int)
    requires IsSymbol(c)
    ensures 0 <= v < 64
  {
    if 'A' <= c <= 'Z' then c as int - 'A' as int
    else if 'a' <= c <= 'z' then c as int - 'a' as int + 26
    else if '0' <= c <= '9' then c as int - '0' as int + 52
    else if c == '+' then 62
    else 63
  }

  lemma SymbolValueOfSymbol(v: int)
    requires 0 <= v < 64
    ensures SymbolValue(Symbol(v)) == v
  {
  }

  lemma SymbolOfSymbolValue(c: char)
    requires IsSymbol(c)
    ensures Symbol(SymbolValue(c)) == c
  {
  }

  /** The four symbols of one group of three bytes (section 4 of RFC 4648, most significant bits first). */
  function EncodeGroup(b0: byte, b1: byte, b2: byte): (q: seq<char>)
    ensures |q| == 4
  {
    [ Symbol(b0 as int / 4),
      Symbol(b0 as int % 4 * 16 + b1 as int / 16),
      Symbol(b1 as int % 16 * 4 + b2 as int / 64),
      Symbol(b2 as int % 64) ]
  }

  /** The three bytes carried by four 6-bit values. */
  function DecodeGroup(v0: int, v1: int, v2: int, v3: int): (b: seq<byte>)
    requires 0 <= v0 < 64 && 0 <= v1 < 64 && 0 <= v2 < 64 && 0 <= v3 < 64
    ensures |b| == 3
  {
    [ (v0 * 4 + v1 / 16) as byte, (v1 % 16 * 16 + v2 / 4) as byte, (v2 % 4 * 64 + v3) as byte ]
  }

  /** An encoding is a multiple of four characters long, each a symbol or padding. */
  predicate IsEncodingShape(s: seq<char>) {
    |s| % 4 == 0 && forall i :: 0 <= i < |s| ==> IsSymbol(s[i]) || s[i] == Padding
  }

  /**
    The padded encoding: each full group of three bytes becomes four symbols; a final group
    of one byte becomes two symbols and `==`, one of two bytes three symbols and `=`.
  */
  function Encode(b: seq<byte>): (s: seq<char>)
    ensures |s| == 4 * ((|b| + 2) / 3)
    ensures IsEncodingShape(s)
    decreases |b|
  {
    if |b| == 0 then []
    else if |b| == 1 then EncodeGroup(b[0], 0, 0)[..2] + [Padding, Padding]
    else if |b| == 2 then EncodeGroup(b[0], b[1], 0)[..3] + [Padding]
    else EncodeGroup(b[0], b[1], b[2]) + Encode(b[3..])
  }

  /** Why a text is not an encoding: the offset of the first quartet that cannot be decoded. */
  datatype CorruptInput = CorruptInput(offset: nat)

  /**
    The bytes of one quartet. Padding is accepted only in the final quartet (`last`), and only
    when the bits it leaves unused are zero, so that every accepted text is the encoding of
    what it decodes to.
  */
  function DecodeQuartet(q: seq<char>, last: bool): (r: Option<seq<byte>>)
    requires |q| == 4
    ensures r.Some? ==> 1 <= |r.value| <= 3 && (|r.value| < 3 ==> last)
  {
    if !IsSymbol(q[0]) || !IsSymbol(q[1]) then None
    else
      var v0, v1 := SymbolValue(q[0]), SymbolValue(q[1]);
      if q[2] == Padding && q[3] == Padding then
        if last && v1 % 16 == 0 then Some(DecodeGroup(v0, v1, 0, 0)[..1]) else None
      else if !IsSymbol(q[2]) then None
      else
        var v2 := SymbolValue(q[2]);
        if q[3] == Padding then
          if last && v2 % 4 == 0 then Some(DecodeGroup(v0, v1, v2, 0)[..2]) else None
        else if !IsSymbol(q[3]) then None
        else Some(DecodeGroup(v0, v1, v2, SymbolValue(q[3])))
  }

  /** Decoding, quartet by quartet; the first quartet that fails decides the error. */
  function Decode(s: seq<char>): (r: Result<seq<byte>, CorruptInput>)
    ensures r.Ok? ==> |s| % 4 == 0
    ensures r.Err? ==> r.error.offset % 4 == 0 && r.error.offset < |s|
    decreases |s|
  {
    if |s| == 0 then Ok([])
    else if |s| < 4 then Err(CorruptInput(0))
    else
      match DecodeQuartet(s[..4], |s| == 4)
      case None => Err(CorruptInput(0))
      case Some(group) =>
        match Decode(s[4..])
        case Ok(rest) => Ok(group + rest)
        case Err(CorruptInput(k)) => Err(CorruptInput(k + 4))
  }

  /** The six-bit values of a group of three bytes give those bytes back. */
  lemma GroupArithmetic(b0: int, b1: int, b2: int)
    requires 0 <= b0 < 256 && 0 <= b1 < 256 && 0 <= b2 < 256
    ensures b0 / 4 * 4 + (b0 % 4 * 16 + b1 / 16) / 16 == b0
    ensures (b0 % 4 * 16 + b1 / 16) % 16 * 16 + (b1 % 16 * 4 + b2 / 64) / 4 == b1
    ensures (b1 % 16 * 4 + b2 / 64) % 4 * 64 + b2 % 64 == b2
  {
  }

  /** Four six-bit values give themselves back through the three bytes they carry. */
  lemma SextetArithmetic(v0: int, v1: int, v2: int, v3: int)
    requires 0 <= v0 < 64 && 0 <= v1 < 64 && 0 <= v2 < 64 && 0 <= v3 < 64
    ensures (v0 * 4 + v1 / 16) / 4 == v0
    ensures (v0 * 4 + v1 / 16) % 4 * 16 + (v1 % 16 * 16 + v2 / 4) / 16 == v1
    ensures (v1 % 16 * 16 + v2 / 4) % 16 * 4 + (v2 % 4 * 64 + v3) / 64 == v2
    ensures (v2 % 4 * 64 + v3) % 64 == v3
  {
  }

  lemma DecodeEncodeGroup(b0: byte, b1: byte, b2: byte, last: bool)
    ensures DecodeQuartet(EncodeGroup(b0, b1, b2), last) == Some([b0, b1, b2])
  {
    var x0, x1, x2 := b0 as int, b1 as int, b2 as int;
    SymbolValueOfSymbol(x0 / 4);
    SymbolValueOfSymbol(x0 % 4 * 16 + x1 / 16);
    SymbolValueOfSymbol(x1 % 16 * 4 + x2 / 64);
    SymbolValueOfSymbol(x2 % 64);
    GroupArithmetic(x0, x1, x2);
  }

  lemma DecodeEncodeOne(b0: byte)
    ensures DecodeQuartet(EncodeGroup(b0, 0, 0)[..2] + [Padding, Padding], true) == Some([b0])
  {
    var x0 := b0 as int;
    var q := EncodeGroup(b0, 0, 0)[..2] + [Padding, Padding];
    SymbolValueOfSymbol(x0 / 4);
    SymbolValueOfSymbol(x0 % 4 * 16);
    assert SymbolValue(q[0]) == x0 / 4 && SymbolValue(q[1]) == x0 % 4 * 16;
    assert q[2] == Padding && q[3] == Padding && (x0 % 4 * 16) % 16 == 0;
    GroupArithmetic(x0, 0, 0);
    assert DecodeGroup(x0 / 4, x0 % 4 * 16, 0, 0)[..1] == [b0];
  }

  lemma DecodeEncodeTwo(b0: byte, b1: byte)
    ensures DecodeQuartet(EncodeGroup(b0, b1, 0)[..3] + [Padding], true) == Some([b0, b1])
  {
    var x0, x1 := b0 as int, b1 as int;
    var q := EncodeGroup(b0, b1, 0)[..3] + [Padding];
    SymbolValueOfSymbol(x0 / 4);
    SymbolValueOfSymbol(x0 % 4 * 16 + x1 / 16);
    SymbolValueOfSymbol(x1 % 16 * 4);
    assert SymbolValue(q[0]) == x0 / 4 && SymbolValue(q[1]) == x0 % 4 * 16 + x1 / 16;
    assert SymbolValue(q[2]) == x1 % 16 * 4;
    assert q[2] != Padding && q[3] == Padding && (x1 % 16 * 4) % 4 == 0;
    GroupArithmetic(x0, x1, 0);
    var g := DecodeGroup(x0 / 4, x0 % 4 * 16 + x1 / 16, x1 % 16 * 4, 0);
    assert g[..2] == [b0, b1];
  }

  lemma DecodeEncodeFinal(b: seq<byte>)
    requires 1 <= |b| <= 2
    ensures Decode(Encode(b)) == Ok(b)
  {
    if |b| == 1 {
      SingletonOf(b);
      var q := EncodeGroup(b[0], 0, 0)[..2] + [Padding, Padding];
      assert Encode(b) == q;
      DecodeEncodeOne(b[0]);
      DecodeLastQuartet(q);
    } else {
      PairOf(b);
      var q := EncodeGroup(b[0], b[1], 0)[..3] + [Padding];
      assert Encode(b) == q;
      DecodeEncodeTwo(b[0], b[1]);
      DecodeLastQuartet(q);
    }
  }

  lemma DecodeLastQuartet(q: seq<char>)
    requires |q| == 4 && DecodeQuartet(q, true).Some?
    ensures Decode(q) == Ok(DecodeQuartet(q, true).value)
  {
    var group := DecodeQuartet(q, true).value;
    assert q[..4] == q;
    assert group + [] == group;
  }

  lemma SingletonOf(b: seq<byte>)
    requires |b| == 1
    ensures b == [b[0]]
  {
  }

  lemma PairOf(b: seq<byte>)
    requires |b| == 2
    ensures b == [b[0], b[1]]
  {
  }

  lemma SplitGroup(b: seq<byte>)
    requires |b| >= 3
    ensures b == [b[0], b[1], b[2]] + b[3..]
  {
  }

  /** A quartet that decodes in front of a text that decodes. */
  lemma DecodeCons(s: seq<char>, group: seq<byte>, rest: seq<byte>)
    requires |s| >= 4 && DecodeQuartet(s[..4], |s| == 4) == Some(group) && Decode(s[4..]) == Ok(rest)
    ensures Decode(s) == Ok(group + rest)
  {
  }

  lemma DecodeEncodeStep(b: seq<byte>)
    requires |b| >= 3 && Decode(Encode(b[3..])) == Ok(b[3..])
    ensures Decode(Encode(b)) == Ok(b)
  {
    var s := Encode(b);
    var q, tail := EncodeGroup(b[0], b[1], b[2]), Encode(b[3..]);
    assert s == q + tail;
    SplitQuartet(s, q, tail);
    DecodeEncodeGroup(b[0], b[1], b[2], |s| == 4);
    DecodeCons(s, [b[0], b[1], b[2]], b[3..]);
    SplitGroup(b);
  }

  lemma SplitQuartet(s: seq<char>, q: seq<char>, tail: seq<char>)
    requires |q| == 4 && s == q + tail
    ensures s[..4] == q && s[4..] == tail
  {
  }

  /** Every byte sequence comes back from its encoding. */
  lemma {:induction false} DecodeEncode(b: seq<byte>)
    ensures Decode(Encode(b)) == Ok(b)
    decreases |b|
  {
    if 1 <= |b| <= 2 {
      DecodeEncodeFinal(b);
    } else if |b| >= 3 {
      DecodeEncode(b[3..]);
      DecodeEncodeStep(b);
    }
  }

  lemma QuartetOf(q: seq<char>)
    requires |q| == 4
    ensures q == [q[0], q[1], q[2], q[3]]
  {
  }

  lemma EncodeOfGroup(b: seq<byte>)
    requires |b| == 3
    ensures Encode(b) == EncodeGroup(b[0], b[1], b[2])
  {
    assert b[3..] == [];
  }

  /** The bytes carried by four six-bit values encode back to those values' symbols. */
  lemma EncodeGroupOfSextets(v0: int, v1: int, v2: int, v3: int, b0: byte, b1: byte, b2: byte)
    requires 0 <= v0 < 64 && 0 <= v1 < 64 && 0 <= v2 < 64 && 0 <= v3 < 64
    requires b0 as int == v0 * 4 + v1 / 16 && b1 as int == v1 % 16 * 16 + v2 / 4 && b2 as int == v2 % 4 * 64 + v3
    ensures EncodeGroup(b0, b1, b2) == [Symbol(v0), Symbol(v1), Symbol(v2), Symbol(v3)]
  {
    SextetArithmetic(v0, v1, v2, v3);
    assert b0 as int / 4 == v0;
    assert b0 as int % 4 * 16 + b1 as int / 16 == v1;
    assert b1 as int % 16 * 4 + b2 as int / 64 == v2;
    assert b2 as int % 64 == v3;
  }

  lemma EncodeDecodeFull(q: seq<char>)
    requires |q| == 4 && IsSymbol(q[0]) && IsSymbol(q[1]) && IsSymbol(q[2]) && IsSymbol(q[3])
    ensures Encode(DecodeGroup(SymbolValue(q[0]), SymbolValue(q[1]), SymbolValue(q[2]), SymbolValue(q[3]))) == q
  {
    var v0, v1, v2, v3 := SymbolValue(q[0]), SymbolValue(q[1]), SymbolValue(q[2]), SymbolValue(q[3]);
    SymbolOfSymbolValue(q[0]);
    SymbolOfSymbolValue(q[1]);
    SymbolOfSymbolValue(q[2]);
    SymbolOfSymbolValue(q[3]);
    var b := DecodeGroup(v0, v1, v2, v3);
    EncodeGroupOfSextets(v0, v1, v2, v3, b[0], b[1], b[2]);
    EncodeOfGroup(b);
    QuartetOf(q);
  }

  lemma EncodeDecodeOne(q: seq<char>)
    requires |q| == 4 && IsSymbol(q[0]) && IsSymbol(q[1]) && q[2] == Padding && q[3] == Padding
    requires SymbolValue(q[1]) % 16 == 0
    ensures Encode(DecodeGroup(SymbolValue(q[0]), SymbolValue(q[1]), 0, 0)[..1]) == q
  {
    var v0, v1 := SymbolValue(q[0]), SymbolValue(q[1]);
    SymbolOfSymbolValue(q[0]);
    SymbolOfSymbolValue(q[1]);
    var g := DecodeGroup(v0, v1, 0, 0);
    assert g[0] as int == v0 * 4 + v1 / 16 && g[1] as int == v1 % 16 * 16 && g[2] as int == 0;
    EncodeGroupOfSextets(v0, v1, 0, 0, g[0], g[1], g[2]);
    var b := g[..1];
    assert b == [g[0]];
    assert g[1] == 0 && g[2] == 0;
    assert Encode(b) == EncodeGroup(g[0], 0, 0)[..2] + [Padding, Padding];
    QuartetOf(q);
  }

  lemma EncodeDecodeTwo(q: seq<char>)
    requires |q| == 4 && IsSymbol(q[0]) && IsSymbol(q[1]) && IsSymbol(q[2]) && q[3] == Padding
    requires SymbolValue(q[2]) % 4 == 0
    ensures Encode(DecodeGroup(SymbolValue(q[0]), SymbolValue(q[1]), SymbolValue(q[2]), 0)[..2]) == q
  {
    var v0, v1, v2 := SymbolValue(q[0]), SymbolValue(q[1]), SymbolValue(q[2]);
    SymbolOfSymbolValue(q[0]);
    SymbolOfSymbolValue(q[1]);
    SymbolOfSymbolValue(q[2]);
    var g := DecodeGroup(v0, v1, v2, 0);
    EncodeGroupOfSextets(v0, v1, v2, 0, g[0], g[1], g[2]);
    var b := g[..2];
    assert b == [g[0], g[1]];
    assert g[2] == 0;
    assert Encode(b) == EncodeGroup(g[0], g[1], 0)[..3] + [Padding];
    QuartetOf(q);
  }

  /** A quartet that decodes is the encoding of its bytes. */
  lemma EncodeDecodeQuartet(q: seq<char>, last: bool)
    requires |q| == 4 && DecodeQuartet(q, last).Some?
    ensures Encode(DecodeQuartet(q, last).value) == q
  {
    if q[2] == Padding && q[3] == Padding {
      EncodeDecodeOne(q);
    } else if q[3] == Padding {
      EncodeDecodeTwo(q);
    } else {
      EncodeDecodeFull(q);
    }
  }

  /** Decoding is strict: a text that decodes is exactly the encoding of its bytes. */
  lemma {:induction false} EncodeDecode(s: seq<char>)
    requires Decode(s).Ok?
    ensures Encode(Decode(s).value) == s
    decreases |s|
  {
    if |s| > 0 {
      var group := DecodeQuartet(s[..4], |s| == 4).value;
      var rest := Decode(s[4..]).value;
      EncodeDecodeQuartet(s[..4], |s| == 4);
      EncodeDecode(s[4..]);
      var b := group + rest;
      if |group| == 3 {
        assert b[..3] == group && b[3..] == rest;
        assert Encode(b) == EncodeGroup(group[0], group[1], group[2]) + Encode(rest);
        assert Encode(group) == EncodeGroup(group[0], group[1], group[2]) + Encode(group[3..]);
        assert group[3..] == [];
      } else {
        assert rest == [] && b == group;
      }
      assert s == s[..4] + s[4..];
    }
  }

  /** A text decodes if and only if it is the encoding of some byte sequence. */
  lemma DecodeSucceedsIff(s: seq<char>)
    ensures Decode(s).Ok? <==> exists b :: Encode(b) == s
  {
    if Decode(s).Ok? {
      EncodeDecode(s);
    }
    if exists b :: Encode(b) == s {
      var b :| Encode(b) == s;
      DecodeEncode(b);
    }
  }

  lemma MultipleOfThree(n: nat)
    requires n % 3 == 0 && n > 0
    ensures n >= 3 && (n - 3) % 3 == 0
  {
  }

  /** A text of at least three bytes encodes its first group in front of the rest. */
  lemma EncodeFront(b: seq<byte>)
    requires |b| >= 3
    ensures Encode(b) == EncodeGroup(b[0], b[1], b[2]) + Encode(b[3..])
  {
  }

  lemma ConcatAssociative(x: seq<char>, y: seq<char>, z: seq<char>)
    ensures x + (y + z) == (x + y) + z
  {
  }

  lemma FrontOfAppend(a: seq<byte>, b: seq<byte>)
    requires |a| >= 3
    ensures (a + b)[0] == a[0] && (a + b)[1] == a[1] && (a + b)[2] == a[2]
    ensures (a + b)[3..] == a[3..] + b
  {
  }

  lemma EncodeAppendStep(a: seq<byte>, b: seq<byte>)
    requires |a| >= 3 && Encode(a[3..] + b) == Encode(a[3..]) + Encode(b)
    ensures Encode(a + b) == Encode(a) + Encode(b)
  {
    FrontOfAppend(a, b);
    EncodeFront(a + b);
    EncodeFront(a);
    ConcatAssociative(EncodeGroup(a[0], a[1], a[2]), Encode(a[3..]), Encode(b));
  }

  /** Encoding proceeds by whole groups: content that fills whole groups encodes independently of what follows. */
  lemma {:induction false} EncodeAppend(a: seq<byte>, b: seq<byte>)
    requires |a| % 3 == 0
    ensures Encode(a + b) == Encode(a) + Encode(b)
    decreases |a|
  {
    if |a| == 0 {
      assert a + b == b;
    } else {
      MultipleOfThree(|a|);
      EncodeAppend(a[3..], b);
      EncodeAppendStep(a, b);
    }
  }


}
