/** Bytes and 32-bit words as bounded integers. */
module Words {
  type Byte = n: int | 0 <= n < 256

  const WORD: int := 0x1_0000_0000

  type U32 = n: int | 0 <= n < WORD
}
