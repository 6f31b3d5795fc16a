/** Integer helpers. */
module Numbers {
  const U64_MAX: nat := 0xFFFF_FFFF_FFFF_FFFF

  function Max(a: int, b: int): int { if a < b then b else a }
}
