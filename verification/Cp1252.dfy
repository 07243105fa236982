/** Windows-1252 as Python's cp1252 codec has it: five bytes have no character. */
module Cp1252 {
  import opened Options
  import opened Utf8

  predicate IsUndefined(b: Byte) {
    b in {0x81, 0x8D, 0x8F, 0x90, 0x9D}
  }

  /** The character a byte stands for; None stands for UnicodeDecodeError. */
  function DecodeByte(b: Byte): Option<CodePoint> {
    match b
    case 0x80 => Some(0x20AC)
    case 0x82 => Some(0x201A)
    case 0x83 => Some(0x0192)
    case 0x84 => Some(0x201E)
    case 0x85 => Some(0x2026)
    case 0x86 => Some(0x2020)
    case 0x87 => Some(0x2021)
    case 0x88 => Some(0x02C6)
    case 0x89 => Some(0x2030)
    case 0x8A => Some(0x0160)
    case 0x8B => Some(0x2039)
    case 0x8C => Some(0x0152)
    case 0x8E => Some(0x017D)
    case 0x91 => Some(0x2018)
    case 0x92 => Some(0x2019)
    case 0x93 => Some(0x201C)
    case 0x94 => Some(0x201D)
    case 0x95 => Some(0x2022)
    case 0x96 => Some(0x2013)
    case 0x97 => Some(0x2014)
    case 0x98 => Some(0x02DC)
    case 0x99 => Some(0x2122)
    case 0x9A => Some(0x0161)
    case 0x9B => Some(0x203A)
    case 0x9C => Some(0x0153)
    case 0x9E => Some(0x017E)
    case 0x9F => Some(0x0178)
    case _ => if IsUndefined(b) then None else Some(b as CodePoint)
  }

  /** The byte of a character; None stands for UnicodeEncodeError. */
  function EncodeChar(c: CodePoint): Option<Byte> {
    match c
    case 0x0152 => Some(0x8C)
    case 0x0153 => Some(0x9C)
    case 0x0160 => Some(0x8A)
    case 0x0161 => Some(0x9A)
    case 0x0178 => Some(0x9F)
    case 0x017D => Some(0x8E)
    case 0x017E => Some(0x9E)
    case 0x0192 => Some(0x83)
    case 0x02C6 => Some(0x88)
    case 0x02DC => Some(0x98)
    case 0x2013 => Some(0x96)
    case 0x2014 => Some(0x97)
    case 0x2018 => Some(0x91)
    case 0x2019 => Some(0x92)
    case 0x201A => Some(0x82)
    case 0x201C => Some(0x93)
    case 0x201D => Some(0x94)
    case 0x201E => Some(0x84)
    case 0x2020 => Some(0x86)
    case 0x2021 => Some(0x87)
    case 0x2022 => Some(0x95)
    case 0x2026 => Some(0x85)
    case 0x2030 => Some(0x89)
    case 0x2039 => Some(0x8B)
    case 0x203A => Some(0x9B)
    case 0x20AC => Some(0x80)
    case 0x2122 => Some(0x99)
    case _ => if c < 0x80 || 0xA0 <= c < 0x100 then Some(c as Byte) else None
  }

  /** The part of the code page between ASCII and Latin-1, row by row; 0 marks an undefined byte. */
  const CODE_PAGE: seq<CodePoint> := [
    0x20AC, 0, 0x201A, 0x0192, 0x201E, 0x2026, 0x2020, 0x2021,
    0x02C6, 0x2030, 0x0160, 0x2039, 0x0152, 0, 0x017D, 0,
    0, 0x2018, 0x2019, 0x201C, 0x201D, 0x2022, 0x2013, 0x2014,
    0x02DC, 0x2122, 0x0161, 0x203A, 0x0153, 0, 0x017E, 0x0178
  ]

  lemma DecodesByCodePage(b: Byte)
    ensures 0x80 <= b < 0xA0 ==>
              DecodeByte(b) == if CODE_PAGE[b - 0x80] == 0 then None else Some(CODE_PAGE[b - 0x80])
    ensures !(0x80 <= b < 0xA0) ==> DecodeByte(b) == Some(b as CodePoint)
  {
  }

  lemma EncodeOfDecodeByte(b: Byte)
    ensures DecodeByte(b).None? <==> IsUndefined(b)
    ensures DecodeByte(b).Some? ==> EncodeChar(DecodeByte(b).value) == Some(b)
    ensures DecodeByte(b).Some? ==> (DecodeByte(b).value < 0x80 <==> b < 0x80)
  {
  }

  lemma DecodeOfEncodeChar(c: CodePoint)
    ensures EncodeChar(c).Some? ==> DecodeByte(EncodeChar(c).value) == Some(c)
    ensures EncodeChar(c).Some? ==> (EncodeChar(c).value < 0x80 <==> c < 0x80)
  {
  }
}
