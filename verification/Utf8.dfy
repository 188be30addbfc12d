/** ConvertUTF32ToUTF8 and the lead-byte table against section 3 of RFC 3629. */
module Utf8 {
  /** A UTF-8 byte, kept in a word as the shifts and masks compute it. */
  type Byte = b: bv32 | b < 0x100

  /** The number of bytes for a code point; 0 when the code does not convert it. */
  function Length(input: bv32): nat {
    if input < 0x80 then 1 else if input < 0x800 then 2 else if input < 0x10000 then 3
    else if input < 0x200000 then 4 else 0
  }

  /** The mark of a first byte of a sequence of n bytes. */
  function FirstByteMark(n: nat): bv32 {
    match n case 2 => 0xC0 case 3 => 0xE0 case 4 => 0xF0 case _ => 0
  }

  /** The lead-byte table: the length of the sequence a byte leads, 1 for a byte that leads none. */
  function LengthByLead(lead: Byte): nat {
    if lead < 0xC2 then 1 else if lead < 0xE0 then 2 else if lead < 0xF0 then 3 else if lead < 0xF5 then 4 else 1
  }

  /** The table of section 3 of RFC 3629: the bits of the code point fill the x's of each row. */
  function Rfc3629(c: bv32): seq<Byte>
    requires c < 0x110000
  {
    if c <= 0x7F then [c]
    else if c <= 0x7FF then [0xC0 | (c >> 6), 0x80 | (c & 0x3F)]
    else if c <= 0xFFFF then [0xE0 | (c >> 12), 0x80 | ((c >> 6) & 0x3F), 0x80 | (c & 0x3F)]
    else [0xF0 | (c >> 18), 0x80 | ((c >> 12) & 0x3F), 0x80 | ((c >> 6) & 0x3F), 0x80 | (c & 0x3F)]
  }

  predicate IsTail(b: Byte) {
    0x80 <= b <= 0xBF
  }

  /** The code point a sequence of bytes stands for, read by the grammar of section 4 of RFC 3629. */
  function Decode(b: seq<Byte>): (c: bv32)
    requires 1 <= |b| <= 4
  {
    match |b|
    case 1 => b[0]
    case 2 => ((b[0] & 0x1F) << 6) | (b[1] & 0x3F)
    case 3 => ((b[0] & 0x0F) << 12) | ((b[1] & 0x3F) << 6) | (b[2] & 0x3F)
    case _ => ((b[0] & 0x07) << 18) | ((b[1] & 0x3F) << 12) | ((b[2] & 0x3F) << 6) | (b[3] & 0x3F)
  }

  predicate IsScalar(c: bv32) {
    c < 0xD800 || 0xE000 <= c < 0x110000
  }

  /** The grammar of section 4 of RFC 3629. */
  predicate WellFormed(b: seq<Byte>) {
    || (|b| == 1 && b[0] <= 0x7F)
    || (|b| == 2 && 0xC2 <= b[0] <= 0xDF && IsTail(b[1]))
    || (|b| == 3 && IsTail(b[1]) && IsTail(b[2])
        && (  (b[0] == 0xE0 && 0xA0 <= b[1])
           || 0xE1 <= b[0] <= 0xEC
           || (b[0] == 0xED && b[1] <= 0x9F)
           || 0xEE <= b[0] <= 0xEF))
    || (|b| == 4 && IsTail(b[1]) && IsTail(b[2]) && IsTail(b[3])
        && (  (b[0] == 0xF0 && 0x90 <= b[1])
           || 0xF1 <= b[0] <= 0xF3
           || (b[0] == 0xF4 && b[1] <= 0x8F)))
  }

  /** The bytes the conversion writes: all of them from the low end up, the first one with its mark. */
  function Converted(input: bv32): (b: seq<Byte>)
    ensures |b| == Length(input)
  {
    var n := Length(input);
    match n
    case 0 => []
    case 1 => [First(input, 1)]
    case 2 => [First(Down(input), 2), Next(input)]
    case 3 => [First(Down(Down(input)), 3), Next(Down(input)), Next(input)]
    case _ => [First(Down(Down(Down(input))), 4), Next(Down(Down(input))), Next(Down(input)), Next(input)]
  }

  function Down(input: bv32): bv32 {
    input >> 6
  }

  function Next(input: bv32): bv32 {
    (input | 0x80) & 0xBF
  }

  function First(input: bv32, n: nat): bv32 {
    input | FirstByteMark(n)
  }

  method ConvertUTF32ToUTF8(code: bv32, output: array<bv32>) returns (length: nat)
    requires output.Length == 4
    modifies output
    ensures length == Length(code)
    ensures output[..length] == Converted(code)
    ensures forall i :: length <= i < 4 ==> output[i] == old(output[i])
  {
    hide Next, First, Down;
    var input := code;
    length := Length(code);
    // The fall-throughs of the switch: the last bytes first.
    if length == 4 {
      output[3] := Next(input);
      input := Down(input);
    }
    if length >= 3 {
      output[2] := Next(input);
      input := Down(input);
    }
    if length >= 2 {
      output[1] := Next(input);
      input := Down(input);
    }
    if length >= 1 {
      output[0] := First(input, length);
    }
  }

  lemma Bits(c: bv32)
    ensures Down(c) == c >> 6 && Down(Down(c)) == c >> 12 && Down(Down(Down(c))) == c >> 18
    ensures Next(c) == 0x80 | (c & 0x3F)
  {
  }

  /** The conversion is the table of RFC 3629 on every code point. */
  lemma ConvertsByRfc3629(c: bv32)
    requires c < 0x110000
    ensures Converted(c) == Rfc3629(c)
  {
    Bits(c);
    Bits(c >> 6);
    Bits(c >> 12);
    hide Next, Down;
  }

  lemma DecodeBits(c: bv32)
    ensures c < 0x800 ==>
              ((((c >> 6) | 0xC0) & 0x1F) << 6) | (((c | 0x80) & 0xBF) & 0x3F) == c
    ensures c < 0x10000 ==>
              ((((c >> 12) | 0xE0) & 0x0F) << 12) | (((((c >> 6) | 0x80) & 0xBF) & 0x3F) << 6)
              | (((c | 0x80) & 0xBF) & 0x3F) == c
    ensures c < 0x200000 ==>
              ((((c >> 18) | 0xF0) & 0x07) << 18) | (((((c >> 12) | 0x80) & 0xBF) & 0x3F) << 12)
              | (((((c >> 6) | 0x80) & 0xBF) & 0x3F) << 6) | (((c | 0x80) & 0xBF) & 0x3F) == c
  {
  }

  /** Nothing above 21 bits is converted, and no byte but those from C2 to F4 leads a longer sequence. */
  lemma OutOfRange(c: bv32, b: Byte)
    ensures Converted(c) == [] <==> c >= 0x200000
    ensures b < 0xC2 || b > 0xF4 ==> LengthByLead(b) == 1
    ensures 0xC2 <= b <= 0xDF ==> LengthByLead(b) == 2
    ensures 0xE0 <= b <= 0xEF ==> LengthByLead(b) == 3
    ensures 0xF0 <= b <= 0xF4 ==> LengthByLead(b) == 4
  {
    hide First, Next, Down;
  }

  /** Decoding undoes the conversion, on everything it converts. */
  lemma DecodeConverted(c: bv32)
    requires c < 0x200000
    ensures Decode(Converted(c)) == c
  {
    DecodeBits(c);
    var b := Converted(c);
    assert |b| == Length(c);
  }

  /** The bytes are well-formed UTF-8 exactly for Unicode scalar values. */
  lemma WellFormedExactly(c: bv32)
    ensures WellFormed(Converted(c)) <==> IsScalar(c)
  {
  }

  /** A reader that trusts the lead-byte table takes the whole sequence, exactly for code points below 0x140000. */
  lemma TableAgrees(c: bv32)
    requires c < 0x200000
    ensures LengthByLead(Converted(c)[0]) == Length(c) <==> c < 0x140000
  {
  }
}
