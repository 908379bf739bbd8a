/** Small things several components share. */
module Common {
  type byte = b: int | 0 <= b < 256

  datatype Option<+T> = None | Some(value: T)

  lemma SmallMod(x: nat, m: nat)
    requires m > 0
    ensures x % m == x <==> x < m
  {
  }
}
