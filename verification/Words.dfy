/** The range of a 64-bit word. */
module Words {
  const WORD := 0x1_0000_0000_0000_0000
}
