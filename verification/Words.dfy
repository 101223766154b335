/** 64-bit unsigned arithmetic as the source uses it. */
module Words {
  const U64_MAX: nat := 0xFFFF_FFFF_FFFF_FFFF

  /** `u64::saturating_add` */
  function SatAdd(a: nat, b: nat): nat {
    if a + b <= U64_MAX then a + b else U64_MAX
  }

  /** `saturating_sub` */
  function SatSub(a: nat, b: nat): nat {
    if b <= a then a - b else 0
  }

  function Max(a: nat, b: nat): nat {
    if a < b then b else a
  }

  function Min(a: nat, b: nat): nat {
    if a < b then a else b
  }

  datatype Option<+T> = None | Some(value: T)
}
