/** Fixed-width counters: their limits, checked and saturating arithmetic. */
module MachineNumbers {
  import opened Wrappers

  const U32_MAX := 0xFFFF_FFFF
  const U64_MAX := 0xFFFF_FFFF_FFFF_FFFF
  const USIZE_MAX := U64_MAX

  type u32 = n: nat | n <= U32_MAX

  function CheckedAdd(a: nat, b: nat, limit: nat): Option<nat> {
    if a + b <= limit then Some(a + b) else None
  }

  function SaturatingAdd(a: nat, b: nat, limit: nat): nat { if a + b > limit then limit else a + b }

  function SaturatingSub(a: nat, b: nat): nat { if a < b then 0 else a - b }
}
