/** The array step shared by the loaders that fill a fresh array slot by slot. */
module Arrays {

  /** `a[j] = x`: slot `j` receives `x`, the slots before it keep theirs. */
  method Place<T>(a: array<T>, j: nat, x: T)
    requires j < a.Length
    modifies a
    ensures a[..j + 1] == old(a[..j]) + [x]
  {
    a[j] := x;
  }
}
