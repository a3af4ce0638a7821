/** Result types, word sizes and collection facts shared by every module. */
module Results {

  datatype Option<+T> = None | Some(value: T)

  /** `Panic` stands for the places where the zygote aborts the process. */
  datatype Outcome<+T, +E> = Ok(value: T) | Err(error: E) | Panic

  const TWO_31: int := 0x8000_0000
  const TWO_32: int := 0x1_0000_0000
  const TWO_64: int := 0x1_0000_0000_0000_0000

  predicate Distinct<T(==)>(s: seq<T>) {
    forall i, j | 0 <= i < j < |s| :: s[i] != s[j]
  }

  lemma SubsetSize<T>(a: set<T>, b: set<T>)
    requires a <= b
    ensures |a| <= |b|
  {
    assert b == a + (b - a);
  }
}
