/** The hash-range test that `migrate` applies to every key: a key's CRC-32
    is tested against a pair of unsigned 32-bit bounds. */
module Partition {
  import opened Crc32

  /** Go's uint32. */
  type U32 = x: int | 0 <= x < 0x1_0000_0000

  /** `crc32hash([]byte(key))`; a Go string is its bytes. */
  function Hash(key: seq<byte>): (h: U32)
  {
    Checksum(key) as int
  }

  /** The range test exactly as the code writes it (slave/slave.go:48-49). */
  predicate Selected(v: U32, left: U32, right: U32)
  {
    (left < right && v >= left && v < right) ||
    (left > right && !(v >= left && v < right))
  }

  /** In order, the bounds select the half-open interval [left, right). */
  lemma SelectedWhenOrdered(v: U32, left: U32, right: U32)
    requires left < right
    ensures Selected(v, left, right) <==> left <= v < right
  {
  }

  /** Reversed bounds select every hash value: `v >= left && v < right` cannot
      hold when right < left, so its negation always does. In particular the
      values of [right, left) are selected too, so this is not the
      complement of that interval. */
  lemma SelectedWhenInverted(v: U32, left: U32, right: U32)
    requires left > right
    ensures Selected(v, left, right)
  {
  }

  /** Equal bounds select nothing. */
  lemma NothingSelectedWhenEqual(v: U32, left: U32, right: U32)
    requires left == right
    ensures !Selected(v, left, right)
  {
  }
}
