/** The bytes of a message: UTF-8, section 3 of RFC 3629. What the splitter counts are these bytes, and it
    never cuts between those of one code point. */
module Encoding {
  import opened SplitUTF8
  import Send

  function Bytes(c: char): seq<int> {
    var v := c as nat;
    if v < 0x80 then [v]
    else if v < 0x800 then [0xC0 + v / 0x40, 0x80 + v % 0x40]
    else if v < 0x10000 then [0xE0 + v / 0x1000, 0x80 + v / 0x40 % 0x40, 0x80 + v % 0x40]
    else [0xF0 + v / 0x40000, 0x80 + v / 0x1000 % 0x40, 0x80 + v / 0x40 % 0x40, 0x80 + v % 0x40]
  }

  function Encoded(s: string): seq<int> { if s == "" then [] else Bytes(s[0]) + Encoded(s[1..]) }

  /** How many bytes the first one announces. */
  function Announced(first: int): nat {
    if first < 0x80 then 1 else if first < 0xE0 then 2 else if first < 0xF0 then 3 else 4
  }

  /** The payload bits of the first code point. */
  function First(bytes: seq<int>): int
    requires bytes != [] && Announced(bytes[0]) <= |bytes|
  {
    match Announced(bytes[0])
    case 1 => bytes[0]
    case 2 => (bytes[0] - 0xC0) * 0x40 + (bytes[1] - 0x80)
    case 3 => (bytes[0] - 0xE0) * 0x1000 + (bytes[1] - 0x80) * 0x40 + (bytes[2] - 0x80)
    case _ => (bytes[0] - 0xF0) * 0x40000 + (bytes[1] - 0x80) * 0x1000 + (bytes[2] - 0x80) * 0x40 + (bytes[3] - 0x80)
  }

  /** The code points read from left to right; what ends too soon is dropped. */
  function Read(bytes: seq<int>): seq<int> {
    if bytes == [] || Announced(bytes[0]) > |bytes| then []
    else [First(bytes)] + Read(bytes[Announced(bytes[0])..])
  }

  /** A code point has as many bytes as the splitter counts for it, and they are read back as it. */
  lemma BytesReadBack(c: char, rest: seq<int>)
    ensures |Bytes(c)| == RuneSize(c) && forall i :: 0 <= i < |Bytes(c)| ==> 0 <= Bytes(c)[i] < 0x100
    ensures Announced((Bytes(c) + rest)[0]) == RuneSize(c) && First(Bytes(c) + rest) == c as int
  {
    var v := c as int;
    Digits(v);
    if v >= 0x10000 { LongReadsBack(c, rest); }
  }

  /** The payload of the bytes of a code point. */
  lemma Digits(v: nat)
    ensures v == v / 0x40 * 0x40 + v % 0x40
    ensures v / 0x40 == v / 0x1000 * 0x40 + v / 0x40 % 0x40
    ensures v / 0x1000 == v / 0x40000 * 0x40 + v / 0x1000 % 0x40
    ensures v < 0x110000 ==> v / 0x40000 < 5
  {
  }

  lemma LongReadsBack(c: char, rest: seq<int>)
    requires c as int >= 0x10000
    ensures Announced((Bytes(c) + rest)[0]) == 4 && First(Bytes(c) + rest) == c as int
  {
    var v, all := c as int, Bytes(c) + rest;
    Digits(v);
    assert all[0] == 0xF0 + v / 0x40000 && all[1] == 0x80 + v / 0x1000 % 0x40;
    assert all[2] == 0x80 + v / 0x40 % 0x40 && all[3] == 0x80 + v % 0x40;
  }

  lemma {:induction false} EncodedReadsBack(s: string)
    ensures |Read(Encoded(s))| == |s| && forall i :: 0 <= i < |s| ==> Read(Encoded(s))[i] == s[i] as int
  {
    if s != "" {
      BytesReadBack(s[0], Encoded(s[1..]));
      assert Encoded(s)[RuneSize(s[0])..] == Encoded(s[1..]);
      EncodedReadsBack(s[1..]);
    }
  }

  lemma {:induction false} EncodedSize(s: string)
    ensures |Encoded(s)| == Size(s)
  {
    if s != "" {
      BytesReadBack(s[0], []);
      EncodedSize(s[1..]);
      assert s == [s[0]] + s[1..] && [s[0]][..0] == "";
      SizeConcat([s[0]], s[1..]);
    }
  }

  lemma {:induction false} EncodedConcat(a: string, b: string)
    ensures Encoded(a + b) == Encoded(a) + Encoded(b)
  {
    if a == "" {
      assert a + b == b;
    } else {
      assert (a + b)[1..] == a[1..] + b;
      EncodedConcat(a[1..], b);
    }
  }

  function AllBytes(parts: seq<string>): seq<int> {
    if parts == [] then [] else AllBytes(parts[..|parts| - 1]) + Encoded(parts[|parts| - 1])
  }

  lemma {:induction false} ConcatBytes(parts: seq<string>)
    ensures AllBytes(parts) == Encoded(Concat(parts))
  {
    if parts != [] {
      var init, last := parts[..|parts| - 1], parts[|parts| - 1];
      ConcatBytes(init);
      EncodedConcat(Concat(init), last);
    }
  }

  /** Every part of a message is at most 400 bytes, which read back as that part, so no code point is
      cut; and the bytes of the parts together are those of the lines that were not blank. */
  lemma PartsInBytes(text: string)
    ensures forall k :: 0 <= k < |Send.Parts(text)| ==>
      && |Encoded(Send.Parts(text)[k])| <= 400
      && |Read(Encoded(Send.Parts(text)[k]))| == |Send.Parts(text)[k]|
      && forall i :: 0 <= i < |Send.Parts(text)[k]| ==>
           Read(Encoded(Send.Parts(text)[k]))[i] == Send.Parts(text)[k][i] as int
    ensures AllBytes(Send.Parts(text)) == Encoded(Spoken(Lines(text), 0, ""))
  {
    var parts := Send.Parts(text);
    SplitIs(text, Send.LIMIT);
    ConcatBytes(parts);
    forall k | 0 <= k < |parts|
      ensures |Encoded(parts[k])| <= 400 && |Read(Encoded(parts[k]))| == |parts[k]|
      ensures forall i :: 0 <= i < |parts[k]| ==> Read(Encoded(parts[k]))[i] == parts[k][i] as int
    {
      assert Fits(parts[k], Send.LIMIT);
      EncodedSize(parts[k]);
      EncodedReadsBack(parts[k]);
    }
  }
}
