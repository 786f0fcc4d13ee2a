/** Vocabulary shared by every component: optional values, bytes and ideal hashing. */
module Foundation {
  datatype Option<+T> = None | Some(value: T)

  type Byte = b: int | 0 <= b < 256
  type Bytes = seq<Byte>

  /** A UUID, written as its canonical text. */
  type Uuid = string

  /** SHA-256 as an ideal, collision-free hash: a hash is determined by, and determines, its input. */
  datatype Hash<T> = Sha256(input: T)

  type Digest = Hash<Bytes>

  lemma SubsetSize<T>(a: set<T>, b: set<T>)
    requires a <= b
    ensures |a| <= |b|
  {
    assert b == a + (b - a);
  }
}
