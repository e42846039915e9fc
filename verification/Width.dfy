/** How many columns a rune occupies. */
module Width {
  import opened Utf8

  /** The Unicode tables, for runes from 0x300 on: 0, 1 or 2 columns each.
      Nothing else about them is used. */
  type WidthTable = f: Rune -> int | forall r :: 0 <= f(r) <= 2 witness (r: Rune) => 1

  const UNICODE_TABLE: WidthTable

  function RuneWidth(r: Rune): (n: int)
    ensures 0 <= n <= 2
  {
    if r < 0x20 || 0x7f <= r < 0xa0 then 0
    else if r < 0x300 then 1
    else UNICODE_TABLE(r)
  }
}
