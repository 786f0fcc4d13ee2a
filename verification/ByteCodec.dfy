/** Big-endian integers and length-prefixed blobs, as written and as taken off the front of an input. */
module ByteCodec {
  import opened Foundation

  function Pow256(n: nat): nat { if n == 0 then 1 else 256 * Pow256(n - 1) }

  const U16_LIMIT: nat := 0x1_0000
  const U32_LIMIT: nat := 0x1_0000_0000
  const U64_LIMIT: nat := 0x1_0000_0000_0000_0000

  type U16 = x: nat | x < U16_LIMIT
  type U32 = x: nat | x < U32_LIMIT
  type U64 = x: nat | x < U64_LIMIT

  /** The bytes of an ASCII literal. */
  function Ascii(s: string): (b: Bytes)
    ensures |b| == |s|
  {
    seq(|s|, i requires 0 <= i < |s| => s[i] as int % 256)
  }

  // ---------------------------------------------------------------- integers

  /** The last `width` bytes of x, most significant first. */
  function Be(x: nat, width: nat): (b: Bytes)
    ensures |b| == width
  {
    if width == 0 then [] else Be(x / 256, width - 1) + [x % 256]
  }

  function FromBe(b: Bytes): nat {
    if b == [] then 0 else 256 * FromBe(b[..|b| - 1]) + b[|b| - 1]
  }

  lemma {:induction false} FromBeUndoesBe(x: nat, width: nat)
    requires x < Pow256(width)
    ensures FromBe(Be(x, width)) == x
    decreases width
  {
    if width > 0 {
      FromBeUndoesBe(x / 256, width - 1);
      assert Be(x, width)[..width - 1] == Be(x / 256, width - 1);
    }
  }

  lemma {:induction false} BeUndoesFromBe(b: Bytes)
    ensures FromBe(b) < Pow256(|b|) && Be(FromBe(b), |b|) == b
  {
    if b != [] {
      var init, last := b[..|b| - 1], b[|b| - 1];
      BeUndoesFromBe(init);
      assert FromBe(b) / 256 == FromBe(init) && FromBe(b) % 256 == last;
      assert b == init + [last];
    }
  }

  lemma Widths()
    ensures Pow256(2) == U16_LIMIT && Pow256(4) == U32_LIMIT && Pow256(8) == U64_LIMIT
  {
    assert Pow256(1) == 256;
    assert Pow256(3) == 256 * Pow256(2);
    assert Pow256(5) == 256 * Pow256(4);
    assert Pow256(6) == 256 * Pow256(5);
    assert Pow256(7) == 256 * Pow256(6);
  }

  // ---------------------------------------------------------------- blobs

  /** The length is cast to 32 bits, whatever the value's real length is. */
  function Blob(value: Bytes): Bytes { Be(|value| % U32_LIMIT, 4) + value }

  datatype Taken<T> = Taken(value: T, rest: Bytes)

  function Take(input: Bytes, n: nat): Option<Taken<Bytes>> {
    if |input| < n then None else Some(Taken(input[..n], input[n..]))
  }

  function TakeUint(input: Bytes, width: nat): Option<Taken<nat>> {
    match Take(input, width)
    case None => None
    case Some(t) => Some(Taken(FromBe(t.value), t.rest))
  }

  function TakeBlob(input: Bytes): Option<Taken<Bytes>> {
    match TakeUint(input, 4)
    case None => None
    case Some(t) => Take(t.rest, t.value)
  }

  // ---------------------------------------------------------------- taking is un-writing, both ways

  lemma TakeIff(input: Bytes, n: nat, value: Bytes, rest: Bytes)
    ensures Take(input, n) == Some(Taken(value, rest)) <==> |value| == n && input == value + rest
  {
  }

  lemma TakeUintIff(input: Bytes, width: nat, x: nat, rest: Bytes)
    ensures TakeUint(input, width) == Some(Taken(x, rest)) <==> x < Pow256(width) && input == Be(x, width) + rest
  {
    if x < Pow256(width) && input == Be(x, width) + rest {
      FromBeUndoesBe(x, width);
      TakeIff(input, width, Be(x, width), rest);
    }
    if TakeUint(input, width) == Some(Taken(x, rest)) {
      BeUndoesFromBe(input[..width]);
    }
  }

  lemma TakeBlobIff(input: Bytes, value: Bytes, rest: Bytes)
    ensures TakeBlob(input) == Some(Taken(value, rest)) <==> |value| < U32_LIMIT && input == Blob(value) + rest
  {
    Widths();
    if |value| < U32_LIMIT && input == Blob(value) + rest {
      assert input == Be(|value|, 4) + (value + rest);
      TakeUintIff(input, 4, |value|, value + rest);
      TakeIff(value + rest, |value|, value, rest);
    }
    if TakeBlob(input) == Some(Taken(value, rest)) {
      var t := TakeUint(input, 4).value;
      TakeUintIff(input, 4, t.value, t.rest);
      TakeIff(t.rest, t.value, value, rest);
      assert input == Be(|value|, 4) + value + rest;
    }
  }

  /** Two blobs in front of the same input are the same blob. */
  lemma BlobPrefixFree(a: Bytes, b: Bytes, x: Bytes, y: Bytes)
    requires |a| < U32_LIMIT && |b| < U32_LIMIT && Blob(a) + x == Blob(b) + y
    ensures a == b && x == y
  {
    TakeBlobIff(Blob(a) + x, a, x);
    TakeBlobIff(Blob(b) + y, b, y);
  }
}
