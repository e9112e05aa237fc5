/**
  The fixtures of the template tests: the template of the encoding test with its JSON text and
  its token, the two malformed payloads and their tokens, and the validation cases. The JSON
  layer is abstract, so each case states as a requirement what Go's `encoding/json` does with
  its payload; the base64 layer, the validator and the pipeline are computed.
*/
module Fixtures {
  import opened Wrappers
  import opened Templates
  import opened Validation
  import opened TemplateCodec
  import Base64

  /** The template of the encoding test: named "test", zero timestamps, every layout absent. */
  function TestTemplate(): DashboardTemplate {
    DashboardTemplate(ZeroTime, ZeroTime, None, 0, false, TemplateBase("test", "test"), EmptyConfig())
  }

  /**
    The 6-bit slices of three bytes, given as the quotients and remainders that make them up
    (`b0 = 4 * v0 + r0`, `v1 = 16 * r0 + q1`, `b1 = 16 * q1 + r1`, `v2 = 4 * r1 + q2`,
    `b2 = 64 * q2 + v3`), are the values the encoder computes by division.
  */
  lemma SlicesOf(b0: int, b1: int, b2: int, v0: int, v1: int, v2: int, v3: int,
                 r0: int, q1: int, r1: int, q2: int)
    requires 0 <= v0 < 64 && 0 <= r0 < 4 && b0 == 4 * v0 + r0
    requires 0 <= q1 < 16 && v1 == 16 * r0 + q1 && 0 <= r1 < 16 && b1 == 16 * q1 + r1
    requires 0 <= q2 < 4 && v2 == 4 * r1 + q2 && 0 <= v3 < 64 && b2 == 64 * q2 + v3
    ensures b0 / 4 == v0 && b0 % 4 * 16 + b1 / 16 == v1
    ensures b1 % 16 * 4 + b2 / 64 == v2 && b2 % 64 == v3
  {
  }

  /** A group of three bytes in front of any text adds the symbols of its four slices. */
  lemma PrependGroup(b0: byte, b1: byte, b2: byte, v0: int, v1: int, v2: int, v3: int,
                     r0: int, q1: int, r1: int, q2: int, rest: seq<byte>)
    requires 0 <= v0 < 64 && 0 <= r0 < 4 && b0 as int == 4 * v0 + r0
    requires 0 <= q1 < 16 && v1 == 16 * r0 + q1 && 0 <= r1 < 16 && b1 as int == 16 * q1 + r1
    requires 0 <= q2 < 4 && v2 == 4 * r1 + q2 && 0 <= v3 < 64 && b2 as int == 64 * q2 + v3
    ensures 0 <= v1 < 64 && 0 <= v2 < 64
    ensures Base64.Encode([b0, b1, b2] + rest)
         == [Base64.Symbol(v0), Base64.Symbol(v1), Base64.Symbol(v2), Base64.Symbol(v3)] + Base64.Encode(rest)
  {
    SlicesOf(b0 as int, b1 as int, b2 as int, v0, v1, v2, v3, r0, q1, r1, q2);
    var b := [b0, b1, b2] + rest;
    assert b[0] == b0 && b[1] == b1 && b[2] == b2 && b[3..] == rest;
  }

  /** Two texts, the first of whole groups, encode to the two encodings one after the other. */
  lemma Join(a: seq<byte>, b: seq<byte>, ta: string, tb: string)
    requires |a| % 3 == 0 && Base64.Encode(a) == ta && Base64.Encode(b) == tb
    ensures Base64.Encode(a + b) == ta + tb
  {
    Base64.EncodeAppend(a, b);
  }

  /**
    The JSON text of the test template as Go's encoder writes it, in 13 parts of whole
    three-byte groups.
  */
  const GoldenJson: seq<byte> :=
    GoldenPart0
    + GoldenPart1
    + GoldenPart2
    + GoldenPart3
    + GoldenPart4
    + GoldenPart5
    + GoldenPart6
    + GoldenPart7
    + GoldenPart8
    + GoldenPart9
    + GoldenPart10
    + GoldenPart11
    + GoldenPart12

  /** The golden token: the base64 text of the JSON text and the encoder's trailing newline. */
  const MatchTestString: string :=
    "eyJjcmVhdGVkQXQiOiIwMDAx"
    + "LTAxLTAxVDAwOjAwOjAwWiIs"
    + "InVwZGF0ZWRBdCI6IjAwMDEt"
    + "MDEtMDFUMDA6MDA6MDBaIiwi"
    + "ZGVsZXRlZEF0IjpudWxsLCJ1"
    + "c2VySWRlbnRpdHlJRCI6MCwi"
    + "ZGVmYXVsdCI6ZmFsc2UsIlRl"
    + "bXBsYXRlQmFzZSI6eyJuYW1l"
    + "IjoidGVzdCIsImRpc3BsYXlO"
    + "YW1lIjoidGVzdCJ9LCJ0ZW1w"
    + "bGF0ZUNvbmZpZyI6eyJzbSI6"
    + "bnVsbCwibWQiOm51bGwsImxn"
    + "IjpudWxsLCJ4bCI6bnVsbH19"
    + "Cg=="

  const GoldenPart0: seq<byte> := [123, 34, 99, 114, 101, 97, 116, 101, 100, 65, 116, 34, 58, 34, 48, 48, 48, 49]  // {"createdAt":"0001

  /**
    The groups of `GoldenPart0`, prepended last first. Each call takes a group's bytes b0, b1, b2,
    its four 6-bit slices v0 = b0 / 4, v1 = 16 * r0 + q1, v2 = 4 * r1 + q2 and v3 = b2 % 64, and the
    parts r0 = b0 % 4, q1 = b1 / 16, r1 = b1 % 16 and q2 = b2 / 64 they are made of.
  */
  lemma GoldenPart0Groups(rest: seq<byte>)
    ensures Base64.Encode([123, 34, 99] + ([114, 101, 97] + ([116, 101, 100] + ([65, 116, 34] + ([58, 34, 48] + ([48, 48, 49] + rest))))))
         == "eyJj" + ("cmVh" + ("dGVk" + ("QXQi" + ("OiIw" + ("MDAx" + Base64.Encode(rest))))))
  {
    PrependGroup(48, 48, 49, 12, 3, 0, 49, 0, 3, 0, 0, rest);
    PrependGroup(58, 34, 48, 14, 34, 8, 48, 2, 2, 2, 0, [48, 48, 49] + rest);
    PrependGroup(65, 116, 34, 16, 23, 16, 34, 1, 7, 4, 0, [58, 34, 48] + ([48, 48, 49] + rest));
    PrependGroup(116, 101, 100, 29, 6, 21, 36, 0, 6, 5, 1, [65, 116, 34] + ([58, 34, 48] + ([48, 48, 49] + rest)));
    PrependGroup(114, 101, 97, 28, 38, 21, 33, 2, 6, 5, 1, [116, 101, 100] + ([65, 116, 34] + ([58, 34, 48] + ([48, 48, 49] + rest))));
    PrependGroup(123, 34, 99, 30, 50, 9, 35, 3, 2, 2, 1, [114, 101, 97] + ([116, 101, 100] + ([65, 116, 34] + ([58, 34, 48] + ([48, 48, 49] + rest)))));
  }

  lemma GoldenPart0Layout()
    ensures GoldenPart0 == [123, 34, 99] + ([114, 101, 97] + ([116, 101, 100] + ([65, 116, 34] + ([58, 34, 48] + ([48, 48, 49] + [])))))
    ensures "eyJjcmVhdGVkQXQiOiIwMDAx" == "eyJj" + ("cmVh" + ("dGVk" + ("QXQi" + ("OiIw" + ("MDAx" + Base64.Encode([]))))))
  {
  }

  lemma GoldenPart0Encodes()
    ensures Base64.Encode(GoldenPart0) == "eyJjcmVhdGVkQXQiOiIwMDAx"
  {
    GoldenPart0Groups([]);
    GoldenPart0Layout();
  }

  const GoldenPart1: seq<byte> := [45, 48, 49, 45, 48, 49, 84, 48, 48, 58, 48, 48, 58, 48, 48, 90, 34, 44]  // -01-01T00:00:00Z",

  /**
    The groups of `GoldenPart1`, prepended last first. Each call takes a group's bytes b0, b1, b2,
    its four 6-bit slices v0 = b0 / 4, v1 = 16 * r0 + q1, v2 = 4 * r1 + q2 and v3 = b2 % 64, and the
    parts r0 = b0 % 4, q1 = b1 / 16, r1 = b1 % 16 and q2 = b2 / 64 they are made of.
  */
  lemma GoldenPart1Groups(rest: seq<byte>)
    ensures Base64.Encode([45, 48, 49] + ([45, 48, 49] + ([84, 48, 48] + ([58, 48, 48] + ([58, 48, 48] + ([90, 34, 44] + rest))))))
         == "LTAx" + ("LTAx" + ("VDAw" + ("OjAw" + ("OjAw" + ("WiIs" + Base64.Encode(rest))))))
  {
    PrependGroup(90, 34, 44, 22, 34, 8, 44, 2, 2, 2, 0, rest);
    PrependGroup(58, 48, 48, 14, 35, 0, 48, 2, 3, 0, 0, [90, 34, 44] + rest);
    PrependGroup(58, 48, 48, 14, 35, 0, 48, 2, 3, 0, 0, [58, 48, 48] + ([90, 34, 44] + rest));
    PrependGroup(84, 48, 48, 21, 3, 0, 48, 0, 3, 0, 0, [58, 48, 48] + ([58, 48, 48] + ([90, 34, 44] + rest)));
    PrependGroup(45, 48, 49, 11, 19, 0, 49, 1, 3, 0, 0, [84, 48, 48] + ([58, 48, 48] + ([58, 48, 48] + ([90, 34, 44] + rest))));
    PrependGroup(45, 48, 49, 11, 19, 0, 49, 1, 3, 0, 0, [45, 48, 49] + ([84, 48, 48] + ([58, 48, 48] + ([58, 48, 48] + ([90, 34, 44] + rest)))));
  }

  lemma GoldenPart1Layout()
    ensures GoldenPart1 == [45, 48, 49] + ([45, 48, 49] + ([84, 48, 48] + ([58, 48, 48] + ([58, 48, 48] + ([90, 34, 44] + [])))))
    ensures "LTAxLTAxVDAwOjAwOjAwWiIs" == "LTAx" + ("LTAx" + ("VDAw" + ("OjAw" + ("OjAw" + ("WiIs" + Base64.Encode([]))))))
  {
  }

  lemma GoldenPart1Encodes()
    ensures Base64.Encode(GoldenPart1) == "LTAxLTAxVDAwOjAwOjAwWiIs"
  {
    GoldenPart1Groups([]);
    GoldenPart1Layout();
  }

  const GoldenPart2: seq<byte> := [34, 117, 112, 100, 97, 116, 101, 100, 65, 116, 34, 58, 34, 48, 48, 48, 49, 45]  // "updatedAt":"0001-

  /**
    The groups of `GoldenPart2`, prepended last first. Each call takes a group's bytes b0, b1, b2,
    its four 6-bit slices v0 = b0 / 4, v1 = 16 * r0 + q1, v2 = 4 * r1 + q2 and v3 = b2 % 64, and the
    parts r0 = b0 % 4, q1 = b1 / 16, r1 = b1 % 16 and q2 = b2 / 64 they are made of.
  */
  lemma GoldenPart2Groups(rest: seq<byte>)
    ensures Base64.Encode([34, 117, 112] + ([100, 97, 116] + ([101, 100, 65] + ([116, 34, 58] + ([34, 48, 48] + ([48, 49, 45] + rest))))))
         == "InVw" + ("ZGF0" + ("ZWRB" + ("dCI6" + ("IjAw" + ("MDEt" + Base64.Encode(rest))))))
  {
    PrependGroup(48, 49, 45, 12, 3, 4, 45, 0, 3, 1, 0, rest);
    PrependGroup(34, 48, 48, 8, 35, 0, 48, 2, 3, 0, 0, [48, 49, 45] + rest);
    PrependGroup(116, 34, 58, 29, 2, 8, 58, 0, 2, 2, 0, [34, 48, 48] + ([48, 49, 45] + rest));
    PrependGroup(101, 100, 65, 25, 22, 17, 1, 1, 6, 4, 1, [116, 34, 58] + ([34, 48, 48] + ([48, 49, 45] + rest)));
    PrependGroup(100, 97, 116, 25, 6, 5, 52, 0, 6, 1, 1, [101, 100, 65] + ([116, 34, 58] + ([34, 48, 48] + ([48, 49, 45] + rest))));
    PrependGroup(34, 117, 112, 8, 39, 21, 48, 2, 7, 5, 1, [100, 97, 116] + ([101, 100, 65] + ([116, 34, 58] + ([34, 48, 48] + ([48, 49, 45] + rest)))));
  }

  lemma GoldenPart2Layout()
    ensures GoldenPart2 == [34, 117, 112] + ([100, 97, 116] + ([101, 100, 65] + ([116, 34, 58] + ([34, 48, 48] + ([48, 49, 45] + [])))))
    ensures "InVwZGF0ZWRBdCI6IjAwMDEt" == "InVw" + ("ZGF0" + ("ZWRB" + ("dCI6" + ("IjAw" + ("MDEt" + Base64.Encode([]))))))
  {
  }

  lemma GoldenPart2Encodes()
    ensures Base64.Encode(GoldenPart2) == "InVwZGF0ZWRBdCI6IjAwMDEt"
  {
    GoldenPart2Groups([]);
    GoldenPart2Layout();
  }

  const GoldenPart3: seq<byte> := [48, 49, 45, 48, 49, 84, 48, 48, 58, 48, 48, 58, 48, 48, 90, 34, 44, 34]  // 01-01T00:00:00Z","

  /**
    The groups of `GoldenPart3`, prepended last first. Each call takes a group's bytes b0, b1, b2,
    its four 6-bit slices v0 = b0 / 4, v1 = 16 * r0 + q1, v2 = 4 * r1 + q2 and v3 = b2 % 64, and the
    parts r0 = b0 % 4, q1 = b1 / 16, r1 = b1 % 16 and q2 = b2 / 64 they are made of.
  */
  lemma GoldenPart3Groups(rest: seq<byte>)
    ensures Base64.Encode([48, 49, 45] + ([48, 49, 84] + ([48, 48, 58] + ([48, 48, 58] + ([48, 48, 90] + ([34, 44, 34] + rest))))))
         == "MDEt" + ("MDFU" + ("MDA6" + ("MDA6" + ("MDBa" + ("Iiwi" + Base64.Encode(rest))))))
  {
    PrependGroup(34, 44, 34, 8, 34, 48, 34, 2, 2, 12, 0, rest);
    PrependGroup(48, 48, 90, 12, 3, 1, 26, 0, 3, 0, 1, [34, 44, 34] + rest);
    PrependGroup(48, 48, 58, 12, 3, 0, 58, 0, 3, 0, 0, [48, 48, 90] + ([34, 44, 34] + rest));
    PrependGroup(48, 48, 58, 12, 3, 0, 58, 0, 3, 0, 0, [48, 48, 58] + ([48, 48, 90] + ([34, 44, 34] + rest)));
    PrependGroup(48, 49, 84, 12, 3, 5, 20, 0, 3, 1, 1, [48, 48, 58] + ([48, 48, 58] + ([48, 48, 90] + ([34, 44, 34] + rest))));
    PrependGroup(48, 49, 45, 12, 3, 4, 45, 0, 3, 1, 0, [48, 49, 84] + ([48, 48, 58] + ([48, 48, 58] + ([48, 48, 90] + ([34, 44, 34] + rest)))));
  }

  lemma GoldenPart3Layout()
    ensures GoldenPart3 == [48, 49, 45] + ([48, 49, 84] + ([48, 48, 58] + ([48, 48, 58] + ([48, 48, 90] + ([34, 44, 34] + [])))))
    ensures "MDEtMDFUMDA6MDA6MDBaIiwi" == "MDEt" + ("MDFU" + ("MDA6" + ("MDA6" + ("MDBa" + ("Iiwi" + Base64.Encode([]))))))
  {
  }

  lemma GoldenPart3Encodes()
    ensures Base64.Encode(GoldenPart3) == "MDEtMDFUMDA6MDA6MDBaIiwi"
  {
    GoldenPart3Groups([]);
    GoldenPart3Layout();
  }

  const GoldenPart4: seq<byte> := [100, 101, 108, 101, 116, 101, 100, 65, 116, 34, 58, 110, 117, 108, 108, 44, 34, 117]  // deletedAt":null,"u

  /**
    The groups of `GoldenPart4`, prepended last first. Each call takes a group's bytes b0, b1, b2,
    its four 6-bit slices v0 = b0 / 4, v1 = 16 * r0 + q1, v2 = 4 * r1 + q2 and v3 = b2 % 64, and the
    parts r0 = b0 % 4, q1 = b1 / 16, r1 = b1 % 16 and q2 = b2 / 64 they are made of.
  */
  lemma GoldenPart4Groups(rest: seq<byte>)
    ensures Base64.Encode([100, 101, 108] + ([101, 116, 101] + ([100, 65, 116] + ([34, 58, 110] + ([117, 108, 108] + ([44, 34, 117] + rest))))))
         == "ZGVs" + ("ZXRl" + ("ZEF0" + ("Ijpu" + ("dWxs" + ("LCJ1" + Base64.Encode(rest))))))
  {
    PrependGroup(44, 34, 117, 11, 2, 9, 53, 0, 2, 2, 1, rest);
    PrependGroup(117, 108, 108, 29, 22, 49, 44, 1, 6, 12, 1, [44, 34, 117] + rest);
    PrependGroup(34, 58, 110, 8, 35, 41, 46, 2, 3, 10, 1, [117, 108, 108] + ([44, 34, 117] + rest));
    PrependGroup(100, 65, 116, 25, 4, 5, 52, 0, 4, 1, 1, [34, 58, 110] + ([117, 108, 108] + ([44, 34, 117] + rest)));
    PrependGroup(101, 116, 101, 25, 23, 17, 37, 1, 7, 4, 1, [100, 65, 116] + ([34, 58, 110] + ([117, 108, 108] + ([44, 34, 117] + rest))));
    PrependGroup(100, 101, 108, 25, 6, 21, 44, 0, 6, 5, 1, [101, 116, 101] + ([100, 65, 116] + ([34, 58, 110] + ([117, 108, 108] + ([44, 34, 117] + rest)))));
  }

  lemma GoldenPart4Layout()
    ensures GoldenPart4 == [100, 101, 108] + ([101, 116, 101] + ([100, 65, 116] + ([34, 58, 110] + ([117, 108, 108] + ([44, 34, 117] + [])))))
    ensures "ZGVsZXRlZEF0IjpudWxsLCJ1" == "ZGVs" + ("ZXRl" + ("ZEF0" + ("Ijpu" + ("dWxs" + ("LCJ1" + Base64.Encode([]))))))
  {
  }

  lemma GoldenPart4Encodes()
    ensures Base64.Encode(GoldenPart4) == "ZGVsZXRlZEF0IjpudWxsLCJ1"
  {
    GoldenPart4Groups([]);
    GoldenPart4Layout();
  }

  const GoldenPart5: seq<byte> := [115, 101, 114, 73, 100, 101, 110, 116, 105, 116, 121, 73, 68, 34, 58, 48, 44, 34]  // serIdentityID":0,"

  /**
    The groups of `GoldenPart5`, prepended last first. Each call takes a group's bytes b0, b1, b2,
    its four 6-bit slices v0 = b0 / 4, v1 = 16 * r0 + q1, v2 = 4 * r1 + q2 and v3 = b2 % 64, and the
    parts r0 = b0 % 4, q1 = b1 / 16, r1 = b1 % 16 and q2 = b2 / 64 they are made of.
  */
  lemma GoldenPart5Groups(rest: seq<byte>)
    ensures Base64.Encode([115, 101, 114] + ([73, 100, 101] + ([110, 116, 105] + ([116, 121, 73] + ([68, 34, 58] + ([48, 44, 34] + rest))))))
         == "c2Vy" + ("SWRl" + ("bnRp" + ("dHlJ" + ("RCI6" + ("MCwi" + Base64.Encode(rest))))))
  {
    PrependGroup(48, 44, 34, 12, 2, 48, 34, 0, 2, 12, 0, rest);
    PrependGroup(68, 34, 58, 17, 2, 8, 58, 0, 2, 2, 0, [48, 44, 34] + rest);
    PrependGroup(116, 121, 73, 29, 7, 37, 9, 0, 7, 9, 1, [68, 34, 58] + ([48, 44, 34] + rest));
    PrependGroup(110, 116, 105, 27, 39, 17, 41, 2, 7, 4, 1, [116, 121, 73] + ([68, 34, 58] + ([48, 44, 34] + rest)));
    PrependGroup(73, 100, 101, 18, 22, 17, 37, 1, 6, 4, 1, [110, 116, 105] + ([116, 121, 73] + ([68, 34, 58] + ([48, 44, 34] + rest))));
    PrependGroup(115, 101, 114, 28, 54, 21, 50, 3, 6, 5, 1, [73, 100, 101] + ([110, 116, 105] + ([116, 121, 73] + ([68, 34, 58] + ([48, 44, 34] + rest)))));
  }

  lemma GoldenPart5Layout()
    ensures GoldenPart5 == [115, 101, 114] + ([73, 100, 101] + ([110, 116, 105] + ([116, 121, 73] + ([68, 34, 58] + ([48, 44, 34] + [])))))
    ensures "c2VySWRlbnRpdHlJRCI6MCwi" == "c2Vy" + ("SWRl" + ("bnRp" + ("dHlJ" + ("RCI6" + ("MCwi" + Base64.Encode([]))))))
  {
  }

  lemma GoldenPart5Encodes()
    ensures Base64.Encode(GoldenPart5) == "c2VySWRlbnRpdHlJRCI6MCwi"
  {
    GoldenPart5Groups([]);
    GoldenPart5Layout();
  }

  const GoldenPart6: seq<byte> := [100, 101, 102, 97, 117, 108, 116, 34, 58, 102, 97, 108, 115, 101, 44, 34, 84, 101]  // default":false,"Te

  /**
    The groups of `GoldenPart6`, prepended last first. Each call takes a group's bytes b0, b1, b2,
    its four 6-bit slices v0 = b0 / 4, v1 = 16 * r0 + q1, v2 = 4 * r1 + q2 and v3 = b2 % 64, and the
    parts r0 = b0 % 4, q1 = b1 / 16, r1 = b1 % 16 and q2 = b2 / 64 they are made of.
  */
  lemma GoldenPart6Groups(rest: seq<byte>)
    ensures Base64.Encode([100, 101, 102] + ([97, 117, 108] + ([116, 34, 58] + ([102, 97, 108] + ([115, 101, 44] + ([34, 84, 101] + rest))))))
         == "ZGVm" + ("YXVs" + ("dCI6" + ("ZmFs" + ("c2Us" + ("IlRl" + Base64.Encode(rest))))))
  {
    PrependGroup(34, 84, 101, 8, 37, 17, 37, 2, 5, 4, 1, rest);
    PrependGroup(115, 101, 44, 28, 54, 20, 44, 3, 6, 5, 0, [34, 84, 101] + rest);
    PrependGroup(102, 97, 108, 25, 38, 5, 44, 2, 6, 1, 1, [115, 101, 44] + ([34, 84, 101] + rest));
    PrependGroup(116, 34, 58, 29, 2, 8, 58, 0, 2, 2, 0, [102, 97, 108] + ([115, 101, 44] + ([34, 84, 101] + rest)));
    PrependGroup(97, 117, 108, 24, 23, 21, 44, 1, 7, 5, 1, [116, 34, 58] + ([102, 97, 108] + ([115, 101, 44] + ([34, 84, 101] + rest))));
    PrependGroup(100, 101, 102, 25, 6, 21, 38, 0, 6, 5, 1, [97, 117, 108] + ([116, 34, 58] + ([102, 97, 108] + ([115, 101, 44] + ([34, 84, 101] + rest)))));
  }

  lemma GoldenPart6Layout()
    ensures GoldenPart6 == [100, 101, 102] + ([97, 117, 108] + ([116, 34, 58] + ([102, 97, 108] + ([115, 101, 44] + ([34, 84, 101] + [])))))
    ensures "ZGVmYXVsdCI6ZmFsc2UsIlRl" == "ZGVm" + ("YXVs" + ("dCI6" + ("ZmFs" + ("c2Us" + ("IlRl" + Base64.Encode([]))))))
  {
  }

  lemma GoldenPart6Encodes()
    ensures Base64.Encode(GoldenPart6) == "ZGVmYXVsdCI6ZmFsc2UsIlRl"
  {
    GoldenPart6Groups([]);
    GoldenPart6Layout();
  }

  const GoldenPart7: seq<byte> := [109, 112, 108, 97, 116, 101, 66, 97, 115, 101, 34, 58, 123, 34, 110, 97, 109, 101]  // mplateBase":{"name

  /**
    The groups of `GoldenPart7`, prepended last first. Each call takes a group's bytes b0, b1, b2,
    its four 6-bit slices v0 = b0 / 4, v1 = 16 * r0 + q1, v2 = 4 * r1 + q2 and v3 = b2 % 64, and the
    parts r0 = b0 % 4, q1 = b1 / 16, r1 = b1 % 16 and q2 = b2 / 64 they are made of.
  */
  lemma GoldenPart7Groups(rest: seq<byte>)
    ensures Base64.Encode([109, 112, 108] + ([97, 116, 101] + ([66, 97, 115] + ([101, 34, 58] + ([123, 34, 110] + ([97, 109, 101] + rest))))))
         == "bXBs" + ("YXRl" + ("QmFz" + ("ZSI6" + ("eyJu" + ("YW1l" + Base64.Encode(rest))))))
  {
    PrependGroup(97, 109, 101, 24, 22, 53, 37, 1, 6, 13, 1, rest);
    PrependGroup(123, 34, 110, 30, 50, 9, 46, 3, 2, 2, 1, [97, 109, 101] + rest);
    PrependGroup(101, 34, 58, 25, 18, 8, 58, 1, 2, 2, 0, [123, 34, 110] + ([97, 109, 101] + rest));
    PrependGroup(66, 97, 115, 16, 38, 5, 51, 2, 6, 1, 1, [101, 34, 58] + ([123, 34, 110] + ([97, 109, 101] + rest)));
    PrependGroup(97, 116, 101, 24, 23, 17, 37, 1, 7, 4, 1, [66, 97, 115] + ([101, 34, 58] + ([123, 34, 110] + ([97, 109, 101] + rest))));
    PrependGroup(109, 112, 108, 27, 23, 1, 44, 1, 7, 0, 1, [97, 116, 101] + ([66, 97, 115] + ([101, 34, 58] + ([123, 34, 110] + ([97, 109, 101] + rest)))));
  }

  lemma GoldenPart7Layout()
    ensures GoldenPart7 == [109, 112, 108] + ([97, 116, 101] + ([66, 97, 115] + ([101, 34, 58] + ([123, 34, 110] + ([97, 109, 101] + [])))))
    ensures "bXBsYXRlQmFzZSI6eyJuYW1l" == "bXBs" + ("YXRl" + ("QmFz" + ("ZSI6" + ("eyJu" + ("YW1l" + Base64.Encode([]))))))
  {
  }

  lemma GoldenPart7Encodes()
    ensures Base64.Encode(GoldenPart7) == "bXBsYXRlQmFzZSI6eyJuYW1l"
  {
    GoldenPart7Groups([]);
    GoldenPart7Layout();
  }

  const GoldenPart8: seq<byte> := [34, 58, 34, 116, 101, 115, 116, 34, 44, 34, 100, 105, 115, 112, 108, 97, 121, 78]  // ":"test","displayN

  /**
    The groups of `GoldenPart8`, prepended last first. Each call takes a group's bytes b0, b1, b2,
    its four 6-bit slices v0 = b0 / 4, v1 = 16 * r0 + q1, v2 = 4 * r1 + q2 and v3 = b2 % 64, and the
    parts r0 = b0 % 4, q1 = b1 / 16, r1 = b1 % 16 and q2 = b2 / 64 they are made of.
  */
  lemma GoldenPart8Groups(rest: seq<byte>)
    ensures Base64.Encode([34, 58, 34] + ([116, 101, 115] + ([116, 34, 44] + ([34, 100, 105] + ([115, 112, 108] + ([97, 121, 78] + rest))))))
         == "Ijoi" + ("dGVz" + ("dCIs" + ("ImRp" + ("c3Bs" + ("YXlO" + Base64.Encode(rest))))))
  {
    PrependGroup(97, 121, 78, 24, 23, 37, 14, 1, 7, 9, 1, rest);
    PrependGroup(115, 112, 108, 28, 55, 1, 44, 3, 7, 0, 1, [97, 121, 78] + rest);
    PrependGroup(34, 100, 105, 8, 38, 17, 41, 2, 6, 4, 1, [115, 112, 108] + ([97, 121, 78] + rest));
    PrependGroup(116, 34, 44, 29, 2, 8, 44, 0, 2, 2, 0, [34, 100, 105] + ([115, 112, 108] + ([97, 121, 78] + rest)));
    PrependGroup(116, 101, 115, 29, 6, 21, 51, 0, 6, 5, 1, [116, 34, 44] + ([34, 100, 105] + ([115, 112, 108] + ([97, 121, 78] + rest))));
    PrependGroup(34, 58, 34, 8, 35, 40, 34, 2, 3, 10, 0, [116, 101, 115] + ([116, 34, 44] + ([34, 100, 105] + ([115, 112, 108] + ([97, 121, 78] + rest)))));
  }

  lemma GoldenPart8Layout()
    ensures GoldenPart8 == [34, 58, 34] + ([116, 101, 115] + ([116, 34, 44] + ([34, 100, 105] + ([115, 112, 108] + ([97, 121, 78] + [])))))
    ensures "IjoidGVzdCIsImRpc3BsYXlO" == "Ijoi" + ("dGVz" + ("dCIs" + ("ImRp" + ("c3Bs" + ("YXlO" + Base64.Encode([]))))))
  {
  }

  lemma GoldenPart8Encodes()
    ensures Base64.Encode(GoldenPart8) == "IjoidGVzdCIsImRpc3BsYXlO"
  {
    GoldenPart8Groups([]);
    GoldenPart8Layout();
  }

  const GoldenPart9: seq<byte> := [97, 109, 101, 34, 58, 34, 116, 101, 115, 116, 34, 125, 44, 34, 116, 101, 109, 112]  // ame":"test"},"temp

  /**
    The groups of `GoldenPart9`, prepended last first. Each call takes a group's bytes b0, b1, b2,
    its four 6-bit slices v0 = b0 / 4, v1 = 16 * r0 + q1, v2 = 4 * r1 + q2 and v3 = b2 % 64, and the
    parts r0 = b0 % 4, q1 = b1 / 16, r1 = b1 % 16 and q2 = b2 / 64 they are made of.
  */
  lemma GoldenPart9Groups(rest: seq<byte>)
    ensures Base64.Encode([97, 109, 101] + ([34, 58, 34] + ([116, 101, 115] + ([116, 34, 125] + ([44, 34, 116] + ([101, 109, 112] + rest))))))
         == "YW1l" + ("Ijoi" + ("dGVz" + ("dCJ9" + ("LCJ0" + ("ZW1w" + Base64.Encode(rest))))))
  {
    PrependGroup(101, 109, 112, 25, 22, 53, 48, 1, 6, 13, 1, rest);
    PrependGroup(44, 34, 116, 11, 2, 9, 52, 0, 2, 2, 1, [101, 109, 112] + rest);
    PrependGroup(116, 34, 125, 29, 2, 9, 61, 0, 2, 2, 1, [44, 34, 116] + ([101, 109, 112] + rest));
    PrependGroup(116, 101, 115, 29, 6, 21, 51, 0, 6, 5, 1, [116, 34, 125] + ([44, 34, 116] + ([101, 109, 112] + rest)));
    PrependGroup(34, 58, 34, 8, 35, 40, 34, 2, 3, 10, 0, [116, 101, 115] + ([116, 34, 125] + ([44, 34, 116] + ([101, 109, 112] + rest))));
    PrependGroup(97, 109, 101, 24, 22, 53, 37, 1, 6, 13, 1, [34, 58, 34] + ([116, 101, 115] + ([116, 34, 125] + ([44, 34, 116] + ([101, 109, 112] + rest)))));
  }

  lemma GoldenPart9Layout()
    ensures GoldenPart9 == [97, 109, 101] + ([34, 58, 34] + ([116, 101, 115] + ([116, 34, 125] + ([44, 34, 116] + ([101, 109, 112] + [])))))
    ensures "YW1lIjoidGVzdCJ9LCJ0ZW1w" == "YW1l" + ("Ijoi" + ("dGVz" + ("dCJ9" + ("LCJ0" + ("ZW1w" + Base64.Encode([]))))))
  {
  }

  lemma GoldenPart9Encodes()
    ensures Base64.Encode(GoldenPart9) == "YW1lIjoidGVzdCJ9LCJ0ZW1w"
  {
    GoldenPart9Groups([]);
    GoldenPart9Layout();
  }

  const GoldenPart10: seq<byte> := [108, 97, 116, 101, 67, 111, 110, 102, 105, 103, 34, 58, 123, 34, 115, 109, 34, 58]  // lateConfig":{"sm":

  /**
    The groups of `GoldenPart10`, prepended last first. Each call takes a group's bytes b0, b1, b2,
    its four 6-bit slices v0 = b0 / 4, v1 = 16 * r0 + q1, v2 = 4 * r1 + q2 and v3 = b2 % 64, and the
    parts r0 = b0 % 4, q1 = b1 / 16, r1 = b1 % 16 and q2 = b2 / 64 they are made of.
  */
  lemma GoldenPart10Groups(rest: seq<byte>)
    ensures Base64.Encode([108, 97, 116] + ([101, 67, 111] + ([110, 102, 105] + ([103, 34, 58] + ([123, 34, 115] + ([109, 34, 58] + rest))))))
         == "bGF0" + ("ZUNv" + ("bmZp" + ("ZyI6" + ("eyJz" + ("bSI6" + Base64.Encode(rest))))))
  {
    PrependGroup(109, 34, 58, 27, 18, 8, 58, 1, 2, 2, 0, rest);
    PrependGroup(123, 34, 115, 30, 50, 9, 51, 3, 2, 2, 1, [109, 34, 58] + rest);
    PrependGroup(103, 34, 58, 25, 50, 8, 58, 3, 2, 2, 0, [123, 34, 115] + ([109, 34, 58] + rest));
    PrependGroup(110, 102, 105, 27, 38, 25, 41, 2, 6, 6, 1, [103, 34, 58] + ([123, 34, 115] + ([109, 34, 58] + rest)));
    PrependGroup(101, 67, 111, 25, 20, 13, 47, 1, 4, 3, 1, [110, 102, 105] + ([103, 34, 58] + ([123, 34, 115] + ([109, 34, 58] + rest))));
    PrependGroup(108, 97, 116, 27, 6, 5, 52, 0, 6, 1, 1, [101, 67, 111] + ([110, 102, 105] + ([103, 34, 58] + ([123, 34, 115] + ([109, 34, 58] + rest)))));
  }

  lemma GoldenPart10Layout()
    ensures GoldenPart10 == [108, 97, 116] + ([101, 67, 111] + ([110, 102, 105] + ([103, 34, 58] + ([123, 34, 115] + ([109, 34, 58] + [])))))
    ensures "bGF0ZUNvbmZpZyI6eyJzbSI6" == "bGF0" + ("ZUNv" + ("bmZp" + ("ZyI6" + ("eyJz" + ("bSI6" + Base64.Encode([]))))))
  {
  }

  lemma GoldenPart10Encodes()
    ensures Base64.Encode(GoldenPart10) == "bGF0ZUNvbmZpZyI6eyJzbSI6"
  {
    GoldenPart10Groups([]);
    GoldenPart10Layout();
  }

  const GoldenPart11: seq<byte> := [110, 117, 108, 108, 44, 34, 109, 100, 34, 58, 110, 117, 108, 108, 44, 34, 108, 103]  // null,"md":null,"lg

  /**
    The groups of `GoldenPart11`, prepended last first. Each call takes a group's bytes b0, b1, b2,
    its four 6-bit slices v0 = b0 / 4, v1 = 16 * r0 + q1, v2 = 4 * r1 + q2 and v3 = b2 % 64, and the
    parts r0 = b0 % 4, q1 = b1 / 16, r1 = b1 % 16 and q2 = b2 / 64 they are made of.
  */
  lemma GoldenPart11Groups(rest: seq<byte>)
    ensures Base64.Encode([110, 117, 108] + ([108, 44, 34] + ([109, 100, 34] + ([58, 110, 117] + ([108, 108, 44] + ([34, 108, 103] + rest))))))
         == "bnVs" + ("bCwi" + ("bWQi" + ("Om51" + ("bGws" + ("Imxn" + Base64.Encode(rest))))))
  {
    PrependGroup(34, 108, 103, 8, 38, 49, 39, 2, 6, 12, 1, rest);
    PrependGroup(108, 108, 44, 27, 6, 48, 44, 0, 6, 12, 0, [34, 108, 103] + rest);
    PrependGroup(58, 110, 117, 14, 38, 57, 53, 2, 6, 14, 1, [108, 108, 44] + ([34, 108, 103] + rest));
    PrependGroup(109, 100, 34, 27, 22, 16, 34, 1, 6, 4, 0, [58, 110, 117] + ([108, 108, 44] + ([34, 108, 103] + rest)));
    PrependGroup(108, 44, 34, 27, 2, 48, 34, 0, 2, 12, 0, [109, 100, 34] + ([58, 110, 117] + ([108, 108, 44] + ([34, 108, 103] + rest))));
    PrependGroup(110, 117, 108, 27, 39, 21, 44, 2, 7, 5, 1, [108, 44, 34] + ([109, 100, 34] + ([58, 110, 117] + ([108, 108, 44] + ([34, 108, 103] + rest)))));
  }

  lemma GoldenPart11Layout()
    ensures GoldenPart11 == [110, 117, 108] + ([108, 44, 34] + ([109, 100, 34] + ([58, 110, 117] + ([108, 108, 44] + ([34, 108, 103] + [])))))
    ensures "bnVsbCwibWQiOm51bGwsImxn" == "bnVs" + ("bCwi" + ("bWQi" + ("Om51" + ("bGws" + ("Imxn" + Base64.Encode([]))))))
  {
  }

  lemma GoldenPart11Encodes()
    ensures Base64.Encode(GoldenPart11) == "bnVsbCwibWQiOm51bGwsImxn"
  {
    GoldenPart11Groups([]);
    GoldenPart11Layout();
  }

  const GoldenPart12: seq<byte> := [34, 58, 110, 117, 108, 108, 44, 34, 120, 108, 34, 58, 110, 117, 108, 108, 125, 125]  // ":null,"xl":null}}

  /**
    The groups of `GoldenPart12`, prepended last first. Each call takes a group's bytes b0, b1, b2,
    its four 6-bit slices v0 = b0 / 4, v1 = 16 * r0 + q1, v2 = 4 * r1 + q2 and v3 = b2 % 64, and the
    parts r0 = b0 % 4, q1 = b1 / 16, r1 = b1 % 16 and q2 = b2 / 64 they are made of.
  */
  lemma GoldenPart12Groups(rest: seq<byte>)
    ensures Base64.Encode([34, 58, 110] + ([117, 108, 108] + ([44, 34, 120] + ([108, 34, 58] + ([110, 117, 108] + ([108, 125, 125] + rest))))))
         == "Ijpu" + ("dWxs" + ("LCJ4" + ("bCI6" + ("bnVs" + ("bH19" + Base64.Encode(rest))))))
  {
    PrependGroup(108, 125, 125, 27, 7, 53, 61, 0, 7, 13, 1, rest);
    PrependGroup(110, 117, 108, 27, 39, 21, 44, 2, 7, 5, 1, [108, 125, 125] + rest);
    PrependGroup(108, 34, 58, 27, 2, 8, 58, 0, 2, 2, 0, [110, 117, 108] + ([108, 125, 125] + rest));
    PrependGroup(44, 34, 120, 11, 2, 9, 56, 0, 2, 2, 1, [108, 34, 58] + ([110, 117, 108] + ([108, 125, 125] + rest)));
    PrependGroup(117, 108, 108, 29, 22, 49, 44, 1, 6, 12, 1, [44, 34, 120] + ([108, 34, 58] + ([110, 117, 108] + ([108, 125, 125] + rest))));
    PrependGroup(34, 58, 110, 8, 35, 41, 46, 2, 3, 10, 1, [117, 108, 108] + ([44, 34, 120] + ([108, 34, 58] + ([110, 117, 108] + ([108, 125, 125] + rest)))));
  }

  lemma GoldenPart12Layout()
    ensures GoldenPart12 == [34, 58, 110] + ([117, 108, 108] + ([44, 34, 120] + ([108, 34, 58] + ([110, 117, 108] + ([108, 125, 125] + [])))))
    ensures "IjpudWxsLCJ4bCI6bnVsbH19" == "Ijpu" + ("dWxs" + ("LCJ4" + ("bCI6" + ("bnVs" + ("bH19" + Base64.Encode([]))))))
  {
  }

  lemma GoldenPart12Encodes()
    ensures Base64.Encode(GoldenPart12) == "IjpudWxsLCJ4bCI6bnVsbH19"
  {
    GoldenPart12Groups([]);
    GoldenPart12Layout();
  }

  /** Every prefix of the JSON text made of whole parts is made of whole groups. */
  lemma GoldenPartLengths()
    ensures |GoldenPart0| % 3 == 0
    ensures |GoldenPart0 + GoldenPart1| % 3 == 0
    ensures |GoldenPart0 + GoldenPart1 + GoldenPart2| % 3 == 0
    ensures |GoldenPart0 + GoldenPart1 + GoldenPart2 + GoldenPart3| % 3 == 0
    ensures |GoldenPart0 + GoldenPart1 + GoldenPart2 + GoldenPart3 + GoldenPart4| % 3 == 0
    ensures |GoldenPart0 + GoldenPart1 + GoldenPart2 + GoldenPart3 + GoldenPart4 + GoldenPart5| % 3 == 0
    ensures |GoldenPart0 + GoldenPart1 + GoldenPart2 + GoldenPart3 + GoldenPart4 + GoldenPart5 + GoldenPart6| % 3 == 0
    ensures |GoldenPart0 + GoldenPart1 + GoldenPart2 + GoldenPart3 + GoldenPart4 + GoldenPart5 + GoldenPart6 + GoldenPart7| % 3 == 0
    ensures |GoldenPart0 + GoldenPart1 + GoldenPart2 + GoldenPart3 + GoldenPart4 + GoldenPart5 + GoldenPart6 + GoldenPart7 + GoldenPart8| % 3 == 0
    ensures |GoldenPart0 + GoldenPart1 + GoldenPart2 + GoldenPart3 + GoldenPart4 + GoldenPart5 + GoldenPart6 + GoldenPart7 + GoldenPart8 + GoldenPart9| % 3 == 0
    ensures |GoldenPart0 + GoldenPart1 + GoldenPart2 + GoldenPart3 + GoldenPart4 + GoldenPart5 + GoldenPart6 + GoldenPart7 + GoldenPart8 + GoldenPart9 + GoldenPart10| % 3 == 0
    ensures |GoldenPart0 + GoldenPart1 + GoldenPart2 + GoldenPart3 + GoldenPart4 + GoldenPart5 + GoldenPart6 + GoldenPart7 + GoldenPart8 + GoldenPart9 + GoldenPart10 + GoldenPart11| % 3 == 0
    ensures |GoldenPart0 + GoldenPart1 + GoldenPart2 + GoldenPart3 + GoldenPart4 + GoldenPart5 + GoldenPart6 + GoldenPart7 + GoldenPart8 + GoldenPart9 + GoldenPart10 + GoldenPart11 + GoldenPart12| % 3 == 0
  {
  }

  /** The trailing newline is a final group of one byte. */
  lemma NewlineEncodes()
    ensures Base64.Encode([Newline]) == "Cg=="
  {
  }

  /** The JSON text of the test template and a newline encode to the golden token. */
  lemma GoldenTokenEncodes()
    ensures Base64.Encode(GoldenJson + [Newline]) == MatchTestString
  {
    GoldenPartLengths();
    NewlineEncodes();
    GoldenPart0Encodes();
    GoldenPart1Encodes();
    GoldenPart2Encodes();
    GoldenPart3Encodes();
    GoldenPart4Encodes();
    GoldenPart5Encodes();
    GoldenPart6Encodes();
    GoldenPart7Encodes();
    GoldenPart8Encodes();
    GoldenPart9Encodes();
    GoldenPart10Encodes();
    GoldenPart11Encodes();
    GoldenPart12Encodes();
    Join(GoldenPart0, GoldenPart1, "eyJjcmVhdGVkQXQiOiIwMDAx", "LTAxLTAxVDAwOjAwOjAwWiIs");
    Join(GoldenPart0 + GoldenPart1, GoldenPart2, "eyJjcmVhdGVkQXQiOiIwMDAx" + "LTAxLTAxVDAwOjAwOjAwWiIs", "InVwZGF0ZWRBdCI6IjAwMDEt");
    Join(GoldenPart0 + GoldenPart1 + GoldenPart2, GoldenPart3, "eyJjcmVhdGVkQXQiOiIwMDAx" + "LTAxLTAxVDAwOjAwOjAwWiIs" + "InVwZGF0ZWRBdCI6IjAwMDEt", "MDEtMDFUMDA6MDA6MDBaIiwi");
    Join(GoldenPart0 + GoldenPart1 + GoldenPart2 + GoldenPart3, GoldenPart4, "eyJjcmVhdGVkQXQiOiIwMDAx" + "LTAxLTAxVDAwOjAwOjAwWiIs" + "InVwZGF0ZWRBdCI6IjAwMDEt" + "MDEtMDFUMDA6MDA6MDBaIiwi", "ZGVsZXRlZEF0IjpudWxsLCJ1");
    Join(GoldenPart0 + GoldenPart1 + GoldenPart2 + GoldenPart3 + GoldenPart4, GoldenPart5, "eyJjcmVhdGVkQXQiOiIwMDAx" + "LTAxLTAxVDAwOjAwOjAwWiIs" + "InVwZGF0ZWRBdCI6IjAwMDEt" + "MDEtMDFUMDA6MDA6MDBaIiwi" + "ZGVsZXRlZEF0IjpudWxsLCJ1", "c2VySWRlbnRpdHlJRCI6MCwi");
    Join(GoldenPart0 + GoldenPart1 + GoldenPart2 + GoldenPart3 + GoldenPart4 + GoldenPart5, GoldenPart6, "eyJjcmVhdGVkQXQiOiIwMDAx" + "LTAxLTAxVDAwOjAwOjAwWiIs" + "InVwZGF0ZWRBdCI6IjAwMDEt" + "MDEtMDFUMDA6MDA6MDBaIiwi" + "ZGVsZXRlZEF0IjpudWxsLCJ1" + "c2VySWRlbnRpdHlJRCI6MCwi", "ZGVmYXVsdCI6ZmFsc2UsIlRl");
    Join(GoldenPart0 + GoldenPart1 + GoldenPart2 + GoldenPart3 + GoldenPart4 + GoldenPart5 + GoldenPart6, GoldenPart7, "eyJjcmVhdGVkQXQiOiIwMDAx" + "LTAxLTAxVDAwOjAwOjAwWiIs" + "InVwZGF0ZWRBdCI6IjAwMDEt" + "MDEtMDFUMDA6MDA6MDBaIiwi" + "ZGVsZXRlZEF0IjpudWxsLCJ1" + "c2VySWRlbnRpdHlJRCI6MCwi" + "ZGVmYXVsdCI6ZmFsc2UsIlRl", "bXBsYXRlQmFzZSI6eyJuYW1l");
    Join(GoldenPart0 + GoldenPart1 + GoldenPart2 + GoldenPart3 + GoldenPart4 + GoldenPart5 + GoldenPart6 + GoldenPart7, GoldenPart8, "eyJjcmVhdGVkQXQiOiIwMDAx" + "LTAxLTAxVDAwOjAwOjAwWiIs" + "InVwZGF0ZWRBdCI6IjAwMDEt" + "MDEtMDFUMDA6MDA6MDBaIiwi" + "ZGVsZXRlZEF0IjpudWxsLCJ1" + "c2VySWRlbnRpdHlJRCI6MCwi" + "ZGVmYXVsdCI6ZmFsc2UsIlRl" + "bXBsYXRlQmFzZSI6eyJuYW1l", "IjoidGVzdCIsImRpc3BsYXlO");
    Join(GoldenPart0 + GoldenPart1 + GoldenPart2 + GoldenPart3 + GoldenPart4 + GoldenPart5 + GoldenPart6 + GoldenPart7 + GoldenPart8, GoldenPart9, "eyJjcmVhdGVkQXQiOiIwMDAx" + "LTAxLTAxVDAwOjAwOjAwWiIs" + "InVwZGF0ZWRBdCI6IjAwMDEt" + "MDEtMDFUMDA6MDA6MDBaIiwi" + "ZGVsZXRlZEF0IjpudWxsLCJ1" + "c2VySWRlbnRpdHlJRCI6MCwi" + "ZGVmYXVsdCI6ZmFsc2UsIlRl" + "bXBsYXRlQmFzZSI6eyJuYW1l" + "IjoidGVzdCIsImRpc3BsYXlO", "YW1lIjoidGVzdCJ9LCJ0ZW1w");
    Join(GoldenPart0 + GoldenPart1 + GoldenPart2 + GoldenPart3 + GoldenPart4 + GoldenPart5 + GoldenPart6 + GoldenPart7 + GoldenPart8 + GoldenPart9, GoldenPart10, "eyJjcmVhdGVkQXQiOiIwMDAx" + "LTAxLTAxVDAwOjAwOjAwWiIs" + "InVwZGF0ZWRBdCI6IjAwMDEt" + "MDEtMDFUMDA6MDA6MDBaIiwi" + "ZGVsZXRlZEF0IjpudWxsLCJ1" + "c2VySWRlbnRpdHlJRCI6MCwi" + "ZGVmYXVsdCI6ZmFsc2UsIlRl" + "bXBsYXRlQmFzZSI6eyJuYW1l" + "IjoidGVzdCIsImRpc3BsYXlO" + "YW1lIjoidGVzdCJ9LCJ0ZW1w", "bGF0ZUNvbmZpZyI6eyJzbSI6");
    Join(GoldenPart0 + GoldenPart1 + GoldenPart2 + GoldenPart3 + GoldenPart4 + GoldenPart5 + GoldenPart6 + GoldenPart7 + GoldenPart8 + GoldenPart9 + GoldenPart10, GoldenPart11, "eyJjcmVhdGVkQXQiOiIwMDAx" + "LTAxLTAxVDAwOjAwOjAwWiIs" + "InVwZGF0ZWRBdCI6IjAwMDEt" + "MDEtMDFUMDA6MDA6MDBaIiwi" + "ZGVsZXRlZEF0IjpudWxsLCJ1" + "c2VySWRlbnRpdHlJRCI6MCwi" + "ZGVmYXVsdCI6ZmFsc2UsIlRl" + "bXBsYXRlQmFzZSI6eyJuYW1l" + "IjoidGVzdCIsImRpc3BsYXlO" + "YW1lIjoidGVzdCJ9LCJ0ZW1w" + "bGF0ZUNvbmZpZyI6eyJzbSI6", "bnVsbCwibWQiOm51bGwsImxn");
    Join(GoldenPart0 + GoldenPart1 + GoldenPart2 + GoldenPart3 + GoldenPart4 + GoldenPart5 + GoldenPart6 + GoldenPart7 + GoldenPart8 + GoldenPart9 + GoldenPart10 + GoldenPart11, GoldenPart12, "eyJjcmVhdGVkQXQiOiIwMDAx" + "LTAxLTAxVDAwOjAwOjAwWiIs" + "InVwZGF0ZWRBdCI6IjAwMDEt" + "MDEtMDFUMDA6MDA6MDBaIiwi" + "ZGVsZXRlZEF0IjpudWxsLCJ1" + "c2VySWRlbnRpdHlJRCI6MCwi" + "ZGVmYXVsdCI6ZmFsc2UsIlRl" + "bXBsYXRlQmFzZSI6eyJuYW1l" + "IjoidGVzdCIsImRpc3BsYXlO" + "YW1lIjoidGVzdCJ9LCJ0ZW1w" + "bGF0ZUNvbmZpZyI6eyJzbSI6" + "bnVsbCwibWQiOm51bGwsImxn", "IjpudWxsLCJ4bCI6bnVsbH19");
    Join(GoldenJson, [Newline], "eyJjcmVhdGVkQXQiOiIwMDAx" + "LTAxLTAxVDAwOjAwOjAwWiIs" + "InVwZGF0ZWRBdCI6IjAwMDEt" + "MDEtMDFUMDA6MDA6MDBaIiwi" + "ZGVsZXRlZEF0IjpudWxsLCJ1" + "c2VySWRlbnRpdHlJRCI6MCwi" + "ZGVmYXVsdCI6ZmFsc2UsIlRl" + "bXBsYXRlQmFzZSI6eyJuYW1l" + "IjoidGVzdCIsImRpc3BsYXlO" + "YW1lIjoidGVzdCJ9LCJ0ZW1w" + "bGF0ZUNvbmZpZyI6eyJzbSI6" + "bnVsbCwibWQiOm51bGwsImxn" + "IjpudWxsLCJ4bCI6bnVsbH19", "Cg==");
  }

  /** A JSON object with none of the template's keys. */
  const FooBarJson: seq<byte> := FooBarJsonHead + [10, 125]  // \n}
  const InvalidEncodedStruct: string := "ewogICAgImZvbyI6ICJiYXIi" + "Cn0="

  const FooBarJsonHead: seq<byte> := [123, 10, 32, 32, 32, 32, 34, 102, 111, 111, 34, 58, 32, 34, 98, 97, 114, 34]  // {\n    "foo": "bar"

  /**
    The groups of `FooBarJsonHead`, prepended last first. Each call takes a group's bytes b0, b1, b2,
    its four 6-bit slices v0 = b0 / 4, v1 = 16 * r0 + q1, v2 = 4 * r1 + q2 and v3 = b2 % 64, and the
    parts r0 = b0 % 4, q1 = b1 / 16, r1 = b1 % 16 and q2 = b2 / 64 they are made of.
  */
  lemma FooBarJsonHeadGroups(rest: seq<byte>)
    ensures Base64.Encode([123, 10, 32] + ([32, 32, 32] + ([34, 102, 111] + ([111, 34, 58] + ([32, 34, 98] + ([97, 114, 34] + rest))))))
         == "ewog" + ("ICAg" + ("ImZv" + ("byI6" + ("ICJi" + ("YXIi" + Base64.Encode(rest))))))
  {
    PrependGroup(97, 114, 34, 24, 23, 8, 34, 1, 7, 2, 0, rest);
    PrependGroup(32, 34, 98, 8, 2, 9, 34, 0, 2, 2, 1, [97, 114, 34] + rest);
    PrependGroup(111, 34, 58, 27, 50, 8, 58, 3, 2, 2, 0, [32, 34, 98] + ([97, 114, 34] + rest));
    PrependGroup(34, 102, 111, 8, 38, 25, 47, 2, 6, 6, 1, [111, 34, 58] + ([32, 34, 98] + ([97, 114, 34] + rest)));
    PrependGroup(32, 32, 32, 8, 2, 0, 32, 0, 2, 0, 0, [34, 102, 111] + ([111, 34, 58] + ([32, 34, 98] + ([97, 114, 34] + rest))));
    PrependGroup(123, 10, 32, 30, 48, 40, 32, 3, 0, 10, 0, [32, 32, 32] + ([34, 102, 111] + ([111, 34, 58] + ([32, 34, 98] + ([97, 114, 34] + rest)))));
  }

  lemma FooBarJsonHeadLayout()
    ensures FooBarJsonHead == [123, 10, 32] + ([32, 32, 32] + ([34, 102, 111] + ([111, 34, 58] + ([32, 34, 98] + ([97, 114, 34] + [])))))
    ensures "ewogICAgImZvbyI6ICJiYXIi" == "ewog" + ("ICAg" + ("ImZv" + ("byI6" + ("ICJi" + ("YXIi" + Base64.Encode([]))))))
  {
  }

  lemma FooBarJsonHeadEncodes()
    ensures Base64.Encode(FooBarJsonHead) == "ewogICAgImZvbyI6ICJiYXIi"
  {
    FooBarJsonHeadGroups([]);
    FooBarJsonHeadLayout();
  }

  lemma FooBarJsonTail()
    ensures |FooBarJsonHead| % 3 == 0
    ensures Base64.Encode([10, 125]) == "Cn0="
  {
  }

  lemma InvalidEncodedStructEncodes()
    ensures Base64.Encode(FooBarJson) == InvalidEncodedStruct
  {
    FooBarJsonHeadEncodes();
    FooBarJsonTail();
    Join(FooBarJsonHead, [10, 125], "ewogICAgImZvbyI6ICJiYXIi", "Cn0=");
  }

  /** A JSON object whose string literal runs into a raw newline. */
  const BrokenJson: seq<byte> := BrokenJsonHead + [125]  // }
  const InvalidEncodedJson: string := "ewogICAgImZvbyI6ICJiYXIK" + "fQ=="

  const BrokenJsonHead: seq<byte> := [123, 10, 32, 32, 32, 32, 34, 102, 111, 111, 34, 58, 32, 34, 98, 97, 114, 10]  // {\n    "foo": "bar\n

  /**
    The groups of `BrokenJsonHead`, prepended last first. Each call takes a group's bytes b0, b1, b2,
    its four 6-bit slices v0 = b0 / 4, v1 = 16 * r0 + q1, v2 = 4 * r1 + q2 and v3 = b2 % 64, and the
    parts r0 = b0 % 4, q1 = b1 / 16, r1 = b1 % 16 and q2 = b2 / 64 they are made of.
  */
  lemma BrokenJsonHeadGroups(rest: seq<byte>)
    ensures Base64.Encode([123, 10, 32] + ([32, 32, 32] + ([34, 102, 111] + ([111, 34, 58] + ([32, 34, 98] + ([97, 114, 10] + rest))))))
         == "ewog" + ("ICAg" + ("ImZv" + ("byI6" + ("ICJi" + ("YXIK" + Base64.Encode(rest))))))
  {
    PrependGroup(97, 114, 10, 24, 23, 8, 10, 1, 7, 2, 0, rest);
    PrependGroup(32, 34, 98, 8, 2, 9, 34, 0, 2, 2, 1, [97, 114, 10] + rest);
    PrependGroup(111, 34, 58, 27, 50, 8, 58, 3, 2, 2, 0, [32, 34, 98] + ([97, 114, 10] + rest));
    PrependGroup(34, 102, 111, 8, 38, 25, 47, 2, 6, 6, 1, [111, 34, 58] + ([32, 34, 98] + ([97, 114, 10] + rest)));
    PrependGroup(32, 32, 32, 8, 2, 0, 32, 0, 2, 0, 0, [34, 102, 111] + ([111, 34, 58] + ([32, 34, 98] + ([97, 114, 10] + rest))));
    PrependGroup(123, 10, 32, 30, 48, 40, 32, 3, 0, 10, 0, [32, 32, 32] + ([34, 102, 111] + ([111, 34, 58] + ([32, 34, 98] + ([97, 114, 10] + rest)))));
  }

  lemma BrokenJsonHeadLayout()
    ensures BrokenJsonHead == [123, 10, 32] + ([32, 32, 32] + ([34, 102, 111] + ([111, 34, 58] + ([32, 34, 98] + ([97, 114, 10] + [])))))
    ensures "ewogICAgImZvbyI6ICJiYXIK" == "ewog" + ("ICAg" + ("ImZv" + ("byI6" + ("ICJi" + ("YXIK" + Base64.Encode([]))))))
  {
  }

  lemma BrokenJsonHeadEncodes()
    ensures Base64.Encode(BrokenJsonHead) == "ewogICAgImZvbyI6ICJiYXIK"
  {
    BrokenJsonHeadGroups([]);
    BrokenJsonHeadLayout();
  }

  lemma BrokenJsonTail()
    ensures |BrokenJsonHead| % 3 == 0
    ensures Base64.Encode([125]) == "fQ=="
  {
  }

  lemma InvalidEncodedJsonEncodes()
    ensures Base64.Encode(BrokenJson) == InvalidEncodedJson
  {
    BrokenJsonHeadEncodes();
    BrokenJsonTail();
    Join(BrokenJsonHead, [125], "ewogICAgImZvbyI6ICJiYXIK", "fQ==");
  }

  /** The JSON parser's diagnostic for a raw newline inside a string literal. */
  const LiteralNewlineDiagnostic: string := "invalid character '\\n' in string literal"

  /** Encoding the test template gives the golden token. */
  lemma EncodeTestTemplate(json: JsonCodec)
    requires json.marshal(TestTemplate()) == Ok(GoldenJson)
    ensures EncodeBase64(json, TestTemplate()) == Ok(MatchTestString)
  {
    GoldenTokenEncodes();
  }

  /** Decoding the golden token gives the test template. */
  lemma DecodeGoldenToken(json: JsonCodec, limits: ColumnLimits)
    requires json.parse(GoldenJson + [Newline]) == Parsed(TestTemplate())
    ensures DecodeDashboardBase64(json, limits, MatchTestString) == Ok(TestTemplate())
  {
    TestTemplateValid(limits);
    ValidPayloadAccepted(json, limits, GoldenJson + [Newline], TestTemplate());
    GoldenTokenEncodes();
  }

  /** The test template passes the validator: it is named and has no grid items. */
  lemma TestTemplateValid(limits: ColumnLimits)
    ensures Validate(TestTemplate(), limits) == Pass
  {
    ValidateAcceptsIff(TestTemplate(), limits);
  }

  /** The token of an object with none of the template's keys fails validation on its name. */
  lemma DecodeInvalidStruct(json: JsonCodec, limits: ColumnLimits)
    requires json.parse(FooBarJson) == Parsed(ZeroTemplate())
    ensures DecodeDashboardBase64(json, limits, InvalidEncodedStruct) == Err(InvalidTemplate(InvalidName))
    ensures ErrorMessage(DecodeDashboardBase64(json, limits, InvalidEncodedStruct).error) == "invalid template name"
  {
    InvalidEncodedStructEncodes();
    EmptyNameRejected(json, limits, FooBarJson, ZeroTemplate());
  }

  /** The token of a broken string literal fails with the parser's own diagnostic. */
  lemma DecodeInvalidJson(json: JsonCodec, limits: ColumnLimits)
    requires json.parse(BrokenJson) == SyntaxError(LiteralNewlineDiagnostic)
    ensures DecodeDashboardBase64(json, limits, InvalidEncodedJson) == Err(MalformedJson(LiteralNewlineDiagnostic))
    ensures ErrorMessage(DecodeDashboardBase64(json, limits, InvalidEncodedJson).error)
         == "invalid character '\\n' in string literal"
  {
    InvalidEncodedJsonEncodes();
    SyntaxErrorPassedThrough(json, limits, BrokenJson, LiteralNewlineDiagnostic);
  }

  /** A template with the given names and configuration, every other field at its zero value. */
  function NamedTemplate(name: string, displayName: string, config: TemplateConfig): DashboardTemplate {
    DashboardTemplate(ZeroTime, ZeroTime, None, 0, false, TemplateBase(name, displayName), config)
  }

  /** The grid item of the configuration case: X = 2 where the sm layout allows 1. */
  function OutOfGridItem(): GridItem {
    GridItem(WidgetDimensions(1, 1, 1, 1), "Widget 1", "LargeWidget_lw1", 2, 0, false)
  }

  /** The case with an empty name, whatever the configuration. */
  lemma InvalidBaseNameCase(config: TemplateConfig, limits: ColumnLimits)
    ensures Message(Validate(NamedTemplate("", "test", config), limits).error) == "invalid template name"
  {
    NameCheckedFirst(NamedTemplate("", "test", config), limits);
  }

  /** The case with an empty display name, whatever the configuration. */
  lemma InvalidBaseDisplayNameCase(config: TemplateConfig, limits: ColumnLimits)
    ensures Message(Validate(NamedTemplate("test", "", config), limits).error) == "invalid template display name"
  {
    DisplayNameCheckedSecond(NamedTemplate("test", "", config), limits);
  }

  /** The case whose sm layout is the single item at X = 2, whatever the other layouts hold. */
  lemma InvalidTemplateConfigCase(config: TemplateConfig, limits: ColumnLimits)
    ensures Message(Validate(NamedTemplate("test", "test", config.(sm := [OutOfGridItem()])), limits).error)
         == "invalid grid item, layout variant sm, coordinate X must be less than 1, current value is 2"
  {
    SmOffenderMessage(NamedTemplate("test", "test", config.(sm := [OutOfGridItem()])), limits, 0);
  }

  /**
    An `sm` item at X = 1, the X of the `sm` items of the valid fixture token, lies exactly on
    the bound and is accepted.
  */
  lemma SmItemOnBoundAccepted(limits: ColumnLimits)
    ensures Validate(NamedTemplate("test", "test", EmptyConfig().(sm := [OutOfGridItem().(x := 1)])), limits) == Pass
  {
    var t := NamedTemplate("test", "test", EmptyConfig().(sm := [OutOfGridItem().(x := 1)]));
    assert !OutOfBounds(t.config.sm[0], SmColumnLimit);
    ValidateAcceptsIff(t, limits);
  }

  /** The valid case: named, over a configuration whose items all lie within their bounds. */
  lemma ValidTemplateCase(config: TemplateConfig, limits: ColumnLimits)
    requires WithinBounds(config, limits)
    ensures Validate(NamedTemplate("test", "test", config), limits) == Pass
  {
    ValidateAcceptsIff(NamedTemplate("test", "test", config), limits);
  }
}
