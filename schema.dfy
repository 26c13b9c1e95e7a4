/** The zod checks the forms use, over already-parsed values. */
module Schema {

  /** `z.string().min(lo).max(hi)`: the length lies in [lo, hi]. */
  predicate LengthIn(s: string, lo: nat, hi: nat) {
    lo <= |s| <= hi
  }

  /** `z.number().min(lo).max(hi)`: the number lies in [lo, hi], both ends inclusive. */
  predicate InRange(x: real, lo: real, hi: real) {
    lo <= x <= hi
  }
}
