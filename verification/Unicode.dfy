/** Classes of characters. */
module Unicode {

  /** `unicode.IsSpace`, by which Go trims. */
  predicate IsSpace(c: char)
  {
    var r := c as int;
    || 0x09 <= r <= 0x0D || r == 0x20 || r == 0x85 || r == 0xA0 || r == 0x1680
    || 0x2000 <= r <= 0x200A || r == 0x2028 || r == 0x2029 || r == 0x202F || r == 0x205F || r == 0x3000
  }

  /** White space and line terminators, sections 12.2 and 12.3 of ECMA-262, by which JavaScript trims. */
  predicate IsJsSpace(c: char)
  {
    c as int == 0xFEFF || (IsSpace(c) && c as int != 0x85)
  }
}
