/** The anti-rollback anchor: its byte form, the rule for a candidate checkpoint, and runs through the stored bytes. */
module Anchor {
  import opened Foundation
  import opened ByteCodec

  const MAGIC := Ascii("TCANCHK2")

  datatype Checkpoint = Checkpoint(stateVersion: U64, epoch: U64, hash: Bytes)

  // ---------------------------------------------------------------- the byte form

  function Encode(c: Checkpoint): Bytes {
    MAGIC + (Be(c.stateVersion, 8) + (Be(c.epoch, 8) + (Be(|c.hash| % U32_LIMIT, 4) + c.hash)))
  }

  /** Eight bytes are an epoch-only anchor of an older host. */
  function Legacy(epoch: U64): Checkpoint { Checkpoint(epoch, epoch, []) }

  function U64At(bytes: Bytes, k: nat): U64
    requires k + 8 <= |bytes|
  {
    BeUndoesFromBe(bytes[k..k + 8]);
    Widths();
    FromBe(bytes[k..k + 8])
  }

  function Decode(bytes: Bytes): Option<Checkpoint> {
    if |bytes| == 8 then Some(Legacy(U64At(bytes, 0)))
    else if |bytes| < 28 || bytes[..8] != MAGIC then None
    else if FromBe(bytes[24..28]) != |bytes| - 28 then None
    else Some(Checkpoint(U64At(bytes, 8), U64At(bytes, 16), bytes[28..]))
  }

  lemma EncodeLayout(c: Checkpoint)
    ensures var b := Encode(c);
            && |b| == 28 + |c.hash| && b[..8] == MAGIC && b[8..16] == Be(c.stateVersion, 8)
            && b[16..24] == Be(c.epoch, 8)
            && b[24..28] == Be(|c.hash| % U32_LIMIT, 4) && b[28..] == c.hash
  {
    assert |MAGIC| == |"TCANCHK2"| == 8;
    hide Be, Ascii;
    var b := Encode(c);
    assert b == MAGIC + Be(c.stateVersion, 8) + Be(c.epoch, 8) + Be(|c.hash| % U32_LIMIT, 4) + c.hash;
  }

  lemma U64Reads(bytes: Bytes, k: nat, x: U64)
    requires k + 8 <= |bytes| && bytes[k..k + 8] == Be(x, 8)
    ensures U64At(bytes, k) == x
  {
    hide Be, FromBe;
    Widths();
    FromBeUndoesBe(x, 8);
  }

  lemma LengthReads(n: nat)
    requires n < U32_LIMIT
    ensures FromBe(Be(n % U32_LIMIT, 4)) == n
  {
    hide Be, FromBe;
    Widths();
    FromBeUndoesBe(n, 4);
  }

  /** Decoding inverts encoding, and an encoded checkpoint never reads as the eight-byte form. */
  lemma DecodeUndoesEncode(c: Checkpoint)
    requires |c.hash| < U32_LIMIT
    ensures Decode(Encode(c)) == Some(c) && |Encode(c)| != 8
  {
    hide Encode, Be, FromBe, Ascii;
    EncodeLayout(c);
    var b := Encode(c);
    U64Reads(b, 8, c.stateVersion);
    U64Reads(b, 16, c.epoch);
    LengthReads(|c.hash|);
  }

  lemma U64AtBytes(bytes: Bytes, k: nat)
    requires k + 8 <= |bytes|
    ensures Be(U64At(bytes, k), 8) == bytes[k..k + 8]
  {
    BeUndoesFromBe(bytes[k..k + 8]);
  }

  lemma Pieces(bytes: Bytes)
    requires |bytes| >= 28
    ensures bytes == bytes[..8] + (bytes[8..16] + (bytes[16..24] + (bytes[24..28] + bytes[28..])))
  {
    assert bytes[24..28] + bytes[28..] == bytes[24..];
    assert bytes[16..24] + bytes[24..] == bytes[16..];
    assert bytes[8..16] + bytes[16..] == bytes[8..];
  }

  lemma LengthBytes(bytes: Bytes, n: nat)
    requires |bytes| >= 28 && FromBe(bytes[24..28]) == n
    ensures n < U32_LIMIT && Be(n % U32_LIMIT, 4) == bytes[24..28]
  {
    BeUndoesFromBe(bytes[24..28]);
    Widths();
  }

  /** Every accepted byte string is an encoded checkpoint or an eight-byte epoch. */
  lemma DecodeAccepts(bytes: Bytes)
    requires Decode(bytes).Some?
    ensures if |bytes| == 8 then Decode(bytes) == Some(Legacy(U64At(bytes, 0)))
            else bytes == Encode(Decode(bytes).value) && |Decode(bytes).value.hash| < U32_LIMIT
  {
    if |bytes| != 8 {
      var c := Decode(bytes).value;
      U64AtBytes(bytes, 8);
      U64AtBytes(bytes, 16);
      hide Be, FromBe, Ascii, U64At;
      LengthBytes(bytes, |c.hash|);
      Pieces(bytes);
    }
  }

  // ---------------------------------------------------------------- the rule

  predicate Accepts(anchored: Option<Checkpoint>, candidate: Checkpoint) {
    match anchored
    case None => true
    case Some(a) =>
      if a.hash == [] then candidate.epoch >= a.epoch
      else !(candidate.stateVersion < a.stateVersion
             || (candidate.stateVersion == a.stateVersion && candidate.hash != a.hash))
  }

  // ---------------------------------------------------------------- runs through the stored bytes

  datatype Verdict = Ready | RePairRequired | Unreadable

  /** The anchor file of one conversation. */
  type Store = Option<Bytes>

  datatype Outcome = Outcome(store: Store, verdict: Verdict)

  function Submit(store: Store, candidate: Checkpoint): Outcome {
    match store
    case None => Outcome(Some(Encode(candidate)), Ready)
    case Some(bytes) =>
      match Decode(bytes)
      case None => Outcome(store, Unreadable)
      case Some(a) =>
        if Accepts(Some(a), candidate) then Outcome(Some(Encode(candidate)), Ready) else Outcome(store, RePairRequired)
  }

  /** The checkpoints that were recorded, oldest first. */
  function Recorded(store: Store, candidates: seq<Checkpoint>): seq<Checkpoint>
    decreases |candidates|
  {
    if candidates == [] then []
    else
      var o := Submit(store, candidates[0]);
      (if o.verdict.Ready? then [candidates[0]] else []) + Recorded(o.store, candidates[1..])
  }

  function After(store: Store, candidates: seq<Checkpoint>): Store
    decreases |candidates|
  {
    if candidates == [] then store else After(Submit(store, candidates[0]).store, candidates[1..])
  }

  predicate Hashed(c: Checkpoint) { 0 < |c.hash| < U32_LIMIT }

  predicate AllHashed(cs: seq<Checkpoint>) { forall i :: 0 <= i < |cs| ==> Hashed(cs[i]) }

  /** A later checkpoint does not go back, and one version has one hash. */
  predicate Advances(a: Checkpoint, b: Checkpoint) {
    a.stateVersion <= b.stateVersion && (a.stateVersion == b.stateVersion ==> a.hash == b.hash)
  }

  predicate Monotone(cs: seq<Checkpoint>) { forall i, j :: 0 <= i <= j < |cs| ==> Advances(cs[i], cs[j]) }

  /** With a hash-carrying checkpoint in the file, everything recorded later advances it. */
  lemma {:induction false} RecordedAdvances(c: Checkpoint, candidates: seq<Checkpoint>)
    requires Hashed(c) && AllHashed(candidates)
    ensures Monotone([c] + Recorded(Some(Encode(c)), candidates))
    decreases |candidates|
  {
    DecodeUndoesEncode(c);
    hide Encode, Decode;
    if candidates != [] {
      var d, rest := candidates[0], candidates[1..];
      if Accepts(Some(c), d) {
        RecordedAdvances(d, rest);
        Prepend(c, d, Recorded(Some(Encode(d)), rest));
        assert [d] + Recorded(Some(Encode(d)), rest) == Recorded(Some(Encode(c)), candidates);
      } else {
        RecordedAdvances(c, rest);
        assert Submit(Some(Encode(c)), d) == Outcome(Some(Encode(c)), RePairRequired);
        assert Recorded(Some(Encode(c)), candidates) == Recorded(Some(Encode(c)), rest);
      }
    }
  }

  lemma Prepend(c: Checkpoint, d: Checkpoint, ds: seq<Checkpoint>)
    requires Advances(c, d) && Monotone([d] + ds)
    ensures Monotone([c] + ([d] + ds))
  {
    var old', new' := [d] + ds, [c] + ([d] + ds);
    forall i, j | 0 <= i <= j < |new'| ensures Advances(new'[i], new'[j]) {
      if i > 0 {
        assert Advances(old'[i - 1], old'[j - 1]);
      } else if j > 0 {
        assert Advances(old'[0], old'[j - 1]);
      }
    }
  }

  /**
   Along every run of hash-carrying candidates from an empty file or a legacy epoch, recorded versions never
   decrease, each version has one hash, and the first record over a legacy anchor does not lower the epoch.
   */
  lemma {:induction false} AnchorMonotone(store: Store, candidates: seq<Checkpoint>)
    requires AllHashed(candidates) && (store.None? || |store.value| == 8)
    ensures Monotone(Recorded(store, candidates))
    ensures store.Some? && Recorded(store, candidates) != []
            ==> Recorded(store, candidates)[0].epoch >= U64At(store.value, 0)
    decreases |candidates|
  {
    hide Encode;
    if candidates != [] {
      var d, rest := candidates[0], candidates[1..];
      var o := Submit(store, d);
      if o.verdict.Ready? {
        RecordedAdvances(d, rest);
        assert Recorded(store, candidates) == [d] + Recorded(Some(Encode(d)), rest);
      } else {
        AnchorMonotone(store, rest);
        assert Recorded(store, candidates) == Recorded(store, rest);
      }
    }
  }

  /** A candidate is either recorded or leaves the file exactly as it was. */
  lemma RejectedLeavesAnchor(store: Store, candidate: Checkpoint)
    ensures Submit(store, candidate).verdict.Ready? <==>
            (store.Some? ==> Decode(store.value).Some? && Accepts(Decode(store.value), candidate))
    ensures Submit(store, candidate).store
            == if Submit(store, candidate).verdict.Ready? then Some(Encode(candidate)) else store
  {
  }

  /** The file after a run holds the last recorded checkpoint, or is untouched. */
  lemma {:induction false} FileHoldsLastRecord(store: Store, candidates: seq<Checkpoint>)
    ensures var r := Recorded(store, candidates);
            After(store, candidates) == if r == [] then store else Some(Encode(r[|r| - 1]))
    decreases |candidates|
  {
    hide Encode, Decode;
    if candidates != [] { FileHoldsLastRecord(Submit(store, candidates[0]).store, candidates[1..]); }
  }

  /**
   The verdict for every file. No file: ready. A checkpoint with a hash: ready exactly for candidates that do not go
   back from it. A checkpoint without one, or an eight-byte epoch: ready exactly from that epoch on. Anything else
   cannot be read, and a readable file that does not admit the candidate asks for a new pairing.
   */
  lemma VerdictIff(store: Store, d: Checkpoint)
    ensures store.None? ==> Submit(store, d).verdict.Ready?
    ensures forall c: Checkpoint :: Hashed(c) && store == Some(Encode(c)) ==>
              Submit(store, d).verdict == if Advances(c, d) then Ready else RePairRequired
    ensures forall v: U64, epoch: U64 :: store == Some(Encode(Checkpoint(v, epoch, []))) ==>
              Submit(store, d).verdict == if d.epoch >= epoch then Ready else RePairRequired
    ensures store.Some? && |store.value| == 8 ==>
              Submit(store, d).verdict == if d.epoch >= FromBe(store.value) then Ready else RePairRequired
    ensures Submit(store, d).verdict.Unreadable? <==>
            store.Some? && |store.value| != 8
            && forall c: Checkpoint :: |c.hash| < U32_LIMIT ==> store.value != Encode(c)
  {
    hide Encode, Decode, FromBe, U64At;
    if store.Some? {
      DecodesIff(store.value);
      if |store.value| == 8 { EightBytes(store.value); }
    }
  }

  /** Readable is what is eight bytes long or an encoded checkpoint, which it then reads as. */
  lemma DecodesIff(bytes: Bytes)
    ensures Decode(bytes).Some? <==> |bytes| == 8 || exists c: Checkpoint :: |c.hash| < U32_LIMIT && bytes == Encode(c)
    ensures forall c: Checkpoint :: |c.hash| < U32_LIMIT && bytes == Encode(c) ==>
              Decode(bytes) == Some(c) && |bytes| != 8
  {
    hide Encode, FromBe, U64At;
    forall c: Checkpoint | |c.hash| < U32_LIMIT && bytes == Encode(c)
      ensures Decode(bytes) == Some(c) && |bytes| != 8
    {
      DecodeUndoesEncode(c);
    }
    if Decode(bytes).Some? { DecodeAccepts(bytes); }
  }

  lemma EightBytes(bytes: Bytes)
    requires |bytes| == 8
    ensures Decode(bytes).Some? && Decode(bytes).value.hash == [] && Decode(bytes).value.epoch == FromBe(bytes)
  {
    hide FromBe;
    assert bytes[0..8] == bytes;
  }

  /** Submitting the recorded checkpoint again, as every start with an unchanged snapshot does, changes nothing. */
  lemma ResubmitIsReady(store: Store, c: Checkpoint)
    requires |c.hash| < U32_LIMIT && Submit(store, c).verdict.Ready?
    ensures Submit(Submit(store, c).store, c) == Submit(store, c)
  {
    DecodeUndoesEncode(c);
    hide Encode, Decode;
  }

  // ---------------------------------------------------------------- candidates without a hash

  /**
   A checkpoint without a hash reads back like a legacy anchor, so it forgets its version. The record after it is
   kept from going back exactly if the checkpoint carries a hash, or has no version to go back from.
   */
  lemma GuardNeedsHash(c: Checkpoint)
    requires |c.hash| < U32_LIMIT
    ensures (forall d: Checkpoint :: Submit(Some(Encode(c)), d).verdict.Ready? ==> d.stateVersion >= c.stateVersion)
            <==> c.hash != [] || c.stateVersion == 0
  {
    DecodeUndoesEncode(c);
    hide Encode, Decode;
    if c.hash == [] && c.stateVersion > 0 {
      var d := Checkpoint(0, c.epoch, []);
      assert Submit(Some(Encode(c)), d).verdict.Ready?;
    }
  }

  /** Three candidates that each pass and end below where they were. */
  lemma EmptyHashRollsBack()
    ensures var cs := [Checkpoint(5, 1, [7]), Checkpoint(6, 1, []), Checkpoint(1, 1, [7])];
            Recorded(None, cs) == cs && !Monotone(cs)
  {
    var a, b, c := Checkpoint(5, 1, [7]), Checkpoint(6, 1, []), Checkpoint(1, 1, [7]);
    DecodeUndoesEncode(a);
    DecodeUndoesEncode(b);
    hide Encode, Decode;
    var cs := [a, b, c];
    assert cs[1..] == [b, c] && [b, c][1..] == [c] && [c][1..] == [];
    assert Recorded(Some(Encode(c)), []) == [];
    assert Recorded(Some(Encode(b)), [c]) == [c];
    assert Recorded(Some(Encode(a)), [b, c]) == [b] + [c];
    assert Recorded(None, cs) == [a] + ([b] + [c]);
    assert !Advances(cs[1], cs[2]);
  }

  // ---------------------------------------------------------------- the anchor in place

  /** Appends field after field. */
  method EncodeCheckpoint(c: Checkpoint) returns (bytes: Bytes)
    ensures bytes == Encode(c)
  {
    hide Be, Ascii;
    bytes := MAGIC;
    bytes := bytes + Be(c.stateVersion, 8);
    bytes := bytes + Be(c.epoch, 8);
    bytes := bytes + Be(|c.hash| % U32_LIMIT, 4);
    bytes := bytes + c.hash;
    assert bytes == Encode(c);
  }

  class AnchorFile {
    var content: Store

    constructor ()
      ensures content == None
    {
      content := None;
    }

    method ValidateSnapshot(candidate: Checkpoint) returns (verdict: Verdict)
      modifies this
      ensures Outcome(content, verdict) == Submit(old(content), candidate)
    {
      if content.Some? {
        var anchored := Decode(content.value);
        if anchored.None? { return Unreadable; }
        if !Accepts(anchored, candidate) { return RePairRequired; }
      }
      var bytes := EncodeCheckpoint(candidate);
      content := Some(bytes);
      return Ready;
    }
  }
}
