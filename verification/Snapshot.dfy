/** The MLS snapshot envelopes V1 and V2, and the storage payload inside them. */
module Snapshot {
  import opened Foundation
  import opened ByteCodec

  const HEADER_V1 := Ascii("TCMLS1")
  const HEADER_V2 := Ascii("TCMLS2")
  const APP_SCHEMA: U16 := 1
  const OPENMLS_VERSION := Ascii("0.8.1")
  const SUITE := Ascii("MLS_128_DHKEMX25519_AES128GCM_SHA256_Ed25519")
  const CHECKSUM_BYTES := 32

  /** SHA-256 as a function to 32 bytes; nothing else about it is used here. */
  type Checksum = b: Bytes | |b| == CHECKSUM_BYTES witness seq(CHECKSUM_BYTES, _ => 0)
  type Hasher = Bytes -> Checksum

  // ---------------------------------------------------------------- the envelope

  datatype Tail = Tail(checksum: Bytes, payload: Bytes)
  datatype Body = Body(epoch: nat, stateVersion: Option<nat>, tail: Tail)

  /** A state version is present in V2 envelopes only. */
  datatype Envelope = Envelope(schema: nat, version: Bytes, suite: Bytes, groupId: Bytes, body: Body)

  predicate TailFits(t: Tail) { |t.checksum| == CHECKSUM_BYTES && |t.payload| < U32_LIMIT }

  predicate BodyFits(b: Body) {
    && b.epoch < U64_LIMIT && (b.stateVersion.Some? ==> b.stateVersion.value < U64_LIMIT) && TailFits(b.tail)
  }

  predicate Fits(e: Envelope) {
    && e.schema < U16_LIMIT && |e.version| < U32_LIMIT && |e.suite| < U32_LIMIT && |e.groupId| < U32_LIMIT
    && BodyFits(e.body)
  }

  function PrintTail(t: Tail): Bytes { t.checksum + Blob(t.payload) }

  function PrintVersion(v: Option<nat>): Bytes { if v.Some? then Be(v.value, 8) else [] }

  function PrintBody(b: Body): Bytes { Be(b.epoch, 8) + (PrintVersion(b.stateVersion) + PrintTail(b.tail)) }

  function HeaderOf(e: Envelope): Bytes { if e.body.stateVersion.Some? then HEADER_V2 else HEADER_V1 }

  function PrintNames(e: Envelope): Bytes { Blob(e.version) + (Blob(e.suite) + (Blob(e.groupId) + PrintBody(e.body))) }

  function Print(e: Envelope): Bytes { HeaderOf(e) + (Be(e.schema, 2) + PrintNames(e)) }

  function ParseTail(input: Bytes): Option<Taken<Tail>> {
    match Take(input, CHECKSUM_BYTES)
    case None => None
    case Some(c) =>
      match TakeBlob(c.rest)
      case None => None
      case Some(p) => Some(Taken(Tail(c.value, p.value), p.rest))
  }

  function ParseVersion(v2: bool, input: Bytes): Option<Taken<Option<nat>>> {
    if !v2 then Some(Taken(None, input))
    else
      match TakeUint(input, 8)
      case None => None
      case Some(v) => Some(Taken(Some(v.value), v.rest))
  }

  function ParseBody(v2: bool, input: Bytes): Option<Taken<Body>> {
    match TakeUint(input, 8)
    case None => None
    case Some(e) =>
      match ParseVersion(v2, e.rest)
      case None => None
      case Some(v) =>
        match ParseTail(v.rest)
        case None => None
        case Some(t) => Some(Taken(Body(e.value, v.value, t.value), t.rest))
  }

  function ParseNames(v2: bool, schema: nat, input: Bytes): Option<Taken<Envelope>> {
    match TakeBlob(input)
    case None => None
    case Some(version) =>
      match TakeBlob(version.rest)
      case None => None
      case Some(suite) =>
        match TakeBlob(suite.rest)
        case None => None
        case Some(group) =>
          match ParseBody(v2, group.rest)
          case None => None
          case Some(body) =>
            Some(Taken(Envelope(schema, version.value, suite.value, group.value, body.value), body.rest))
  }

  /** The fields both the restore path and the metadata path take off the front of a snapshot. */
  function ParseFields(input: Bytes): Option<Taken<Envelope>> {
    match Take(input, 6)
    case None => None
    case Some(h) =>
      if h.value != HEADER_V1 && h.value != HEADER_V2 then None
      else
        match TakeUint(h.rest, 2)
        case None => None
        case Some(s) => ParseNames(h.value == HEADER_V2, s.value, s.rest)
  }

  /** A whole snapshot, with nothing left over. */
  function Parse(input: Bytes): Option<Envelope> {
    match ParseFields(input)
    case None => None
    case Some(t) => if t.rest == [] then Some(t.value) else None
  }

  // ---------------------------------------------------------------- parsing is un-printing, both ways

  lemma ParseTailIff(input: Bytes, t: Tail, rest: Bytes)
    ensures ParseTail(input) == Some(Taken(t, rest)) <==> TailFits(t) && input == PrintTail(t) + rest
  {
    hide Take, TakeBlob, Blob;
    if TailFits(t) && input == PrintTail(t) + rest {
      assert input == t.checksum + (Blob(t.payload) + rest);
      TakeIff(input, CHECKSUM_BYTES, t.checksum, Blob(t.payload) + rest);
      TakeBlobIff(Blob(t.payload) + rest, t.payload, rest);
    }
    if ParseTail(input) == Some(Taken(t, rest)) {
      var c := Take(input, CHECKSUM_BYTES).value;
      TakeIff(input, CHECKSUM_BYTES, c.value, c.rest);
      TakeBlobIff(c.rest, t.payload, rest);
      assert input == t.checksum + Blob(t.payload) + rest;
    }
  }

  lemma ParseVersionIff(v2: bool, input: Bytes, v: Option<nat>, rest: Bytes)
    ensures ParseVersion(v2, input) == Some(Taken(v, rest)) <==>
            v.Some? == v2 && (v.Some? ==> v.value < U64_LIMIT) && input == PrintVersion(v) + rest
  {
    Widths();
    if v.Some? {
      TakeUintIff(input, 8, v.value, rest);
    } else {
      assert PrintVersion(v) + rest == rest;
    }
  }

  lemma ParseBodyForward(v2: bool, input: Bytes, b: Body, rest: Bytes)
    requires ParseBody(v2, input) == Some(Taken(b, rest))
    ensures BodyFits(b) && b.stateVersion.Some? == v2 && input == PrintBody(b) + rest
  {
    Widths();
    hide TakeUint, ParseVersion, ParseTail, PrintVersion, PrintTail, TailFits, Be;
    var e := TakeUint(input, 8).value;
    TakeUintIff(input, 8, e.value, e.rest);
    var v := ParseVersion(v2, e.rest).value;
    ParseVersionIff(v2, e.rest, v.value, v.rest);
    ParseTailIff(v.rest, b.tail, rest);
    assert input == Be(b.epoch, 8) + (PrintVersion(b.stateVersion) + PrintTail(b.tail)) + rest;
  }

  lemma ParseBodyBackward(v2: bool, input: Bytes, b: Body, rest: Bytes)
    requires BodyFits(b) && b.stateVersion.Some? == v2 && input == PrintBody(b) + rest
    ensures ParseBody(v2, input) == Some(Taken(b, rest))
  {
    Widths();
    hide TakeUint, ParseVersion, ParseTail, PrintVersion, PrintTail, TailFits, Be;
    var afterEpoch := PrintVersion(b.stateVersion) + (PrintTail(b.tail) + rest);
    assert input == Be(b.epoch, 8) + afterEpoch;
    TakeUintIff(input, 8, b.epoch, afterEpoch);
    ParseVersionIff(v2, afterEpoch, b.stateVersion, PrintTail(b.tail) + rest);
    ParseTailIff(PrintTail(b.tail) + rest, b.tail, rest);
  }

  lemma ParseNamesForward(v2: bool, schema: nat, input: Bytes, e: Envelope, rest: Bytes)
    requires ParseNames(v2, schema, input) == Some(Taken(e, rest)) && schema < U16_LIMIT
    ensures Fits(e) && e.schema == schema && e.body.stateVersion.Some? == v2 && input == PrintNames(e) + rest
  {
    hide TakeBlob, ParseBody, PrintBody, BodyFits, Blob;
    var version := TakeBlob(input).value;
    TakeBlobIff(input, version.value, version.rest);
    var suite := TakeBlob(version.rest).value;
    TakeBlobIff(version.rest, suite.value, suite.rest);
    var group := TakeBlob(suite.rest).value;
    TakeBlobIff(suite.rest, group.value, group.rest);
    ParseBodyForward(v2, group.rest, e.body, rest);
    assert input == Blob(e.version) + (Blob(e.suite) + (Blob(e.groupId) + PrintBody(e.body))) + rest;
  }

  lemma ParseNamesBackward(v2: bool, schema: nat, input: Bytes, e: Envelope, rest: Bytes)
    requires Fits(e) && e.schema == schema && e.body.stateVersion.Some? == v2 && input == PrintNames(e) + rest
    ensures ParseNames(v2, schema, input) == Some(Taken(e, rest))
  {
    hide TakeBlob, ParseBody, PrintBody, BodyFits, Blob;
    var afterGroup := PrintBody(e.body) + rest;
    var afterSuite := Blob(e.groupId) + afterGroup;
    var afterVersion := Blob(e.suite) + afterSuite;
    assert input == Blob(e.version) + afterVersion;
    TakeBlobIff(input, e.version, afterVersion);
    TakeBlobIff(afterVersion, e.suite, afterSuite);
    TakeBlobIff(afterSuite, e.groupId, afterGroup);
    ParseBodyBackward(v2, afterGroup, e.body, rest);
  }

  lemma HeadersDiffer()
    ensures |HEADER_V1| == |HEADER_V2| == 6 && HEADER_V1 != HEADER_V2
  {
    assert HEADER_V1[5] == '1' as int % 256 && HEADER_V2[5] == '2' as int % 256;
  }

  /** The fields taken off an input are exactly those whose printed form starts the input. */
  lemma ParseFieldsIff(input: Bytes, e: Envelope, rest: Bytes)
    ensures ParseFields(input) == Some(Taken(e, rest)) <==> Fits(e) && input == Print(e) + rest
  {
    HeadersDiffer();
    Widths();
    hide Take, TakeUint, ParseNames, PrintNames, BodyFits, Be, Ascii;
    if Fits(e) && input == Print(e) + rest {
      var afterSchema := PrintNames(e) + rest;
      var afterHeader := Be(e.schema, 2) + afterSchema;
      assert input == HeaderOf(e) + afterHeader;
      TakeIff(input, 6, HeaderOf(e), afterHeader);
      TakeUintIff(afterHeader, 2, e.schema, afterSchema);
      ParseNamesBackward(e.body.stateVersion.Some?, e.schema, afterSchema, e, rest);
    }
    if ParseFields(input) == Some(Taken(e, rest)) {
      var h := Take(input, 6).value;
      TakeIff(input, 6, h.value, h.rest);
      var s := TakeUint(h.rest, 2).value;
      TakeUintIff(h.rest, 2, s.value, s.rest);
      ParseNamesForward(h.value == HEADER_V2, s.value, s.rest, e, rest);
      assert input == HeaderOf(e) + (Be(e.schema, 2) + PrintNames(e)) + rest;
    }
  }

  /** The parser accepts a byte string exactly when it is the printed form of an envelope, and returns that envelope. */
  lemma ParseIff(input: Bytes, e: Envelope)
    ensures Parse(input) == Some(e) <==> Fits(e) && input == Print(e)
  {
    hide ParseFields, Print, Fits;
    assert Print(e) + [] == Print(e);
    ParseFieldsIff(input, e, []);
  }

  /** Printed envelopes decompose in one way only. */
  lemma PrintInjective(a: Envelope, b: Envelope)
    requires Fits(a) && Fits(b) && Print(a) == Print(b)
    ensures a == b
  {
    ParseIff(Print(a), a);
    ParseIff(Print(b), b);
  }

  /** An accepted snapshot followed by anything is rejected. */
  lemma ExtendedRejected(input: Bytes, extra: Bytes)
    requires Parse(input).Some? && extra != []
    ensures Parse(input + extra).None?
  {
    hide ParseFields, Print, Fits;
    var e := Parse(input).value;
    ParseFieldsIff(input, e, []);
    assert input + extra == Print(e) + extra;
    ParseFieldsIff(input + extra, e, extra);
  }

  /** Any proper prefix of an accepted snapshot is rejected. */
  lemma TruncatedRejected(input: Bytes, k: nat)
    requires Parse(input).Some? && k < |input|
    ensures Parse(input[..k]).None?
  {
    hide Parse;
    assert input[..k] + input[k..] == input;
    if Parse(input[..k]).Some? { ExtendedRejected(input[..k], input[k..]); }
  }

  // ---------------------------------------------------------------- the payload

  datatype Item = Item(key: Bytes, value: Bytes)

  function PrintItems(items: seq<Item>): Bytes {
    if items == [] then [] else Blob(items[0].key) + (Blob(items[0].value) + PrintItems(items[1..]))
  }

  predicate ItemsFit(items: seq<Item>) {
    forall i :: 0 <= i < |items| ==> |items[i].key| < U32_LIMIT && |items[i].value| < U32_LIMIT
  }

  function PrintPayload(signer: Bytes, groupId: Bytes, items: seq<Item>): Bytes {
    HEADER_V1 + (Blob(signer) + (Blob(groupId) + (Be(|items| % U32_LIMIT, 4) + PrintItems(items))))
  }

  /** Inserting items one after the other, a later one replacing an earlier one with the same key. */
  function Insert(m: map<Bytes, Bytes>, items: seq<Item>): map<Bytes, Bytes>
    decreases |items|
  {
    if items == [] then m else Insert(m[items[0].key := items[0].value], items[1..])
  }

  function ParseItems(count: nat, input: Bytes, m: map<Bytes, Bytes>): Option<Taken<map<Bytes, Bytes>>>
    decreases count
  {
    if count == 0 then Some(Taken(m, input))
    else
      match TakeBlob(input)
      case None => None
      case Some(key) =>
        match TakeBlob(key.rest)
        case None => None
        case Some(value) => ParseItems(count - 1, value.rest, m[key.value := value.value])
  }

  datatype Payload = Payload(signer: Bytes, groupId: Bytes, storage: map<Bytes, Bytes>)

  /** Unlike the envelope, the payload may be followed by bytes nobody looks at. */
  function ParsePayload(input: Bytes): Option<Payload> {
    match Take(input, 6)
    case None => None
    case Some(h) =>
      if h.value != HEADER_V1 then None
      else
        match TakeBlob(h.rest)
        case None => None
        case Some(signer) =>
          match TakeBlob(signer.rest)
          case None => None
          case Some(group) =>
            match TakeUint(group.rest, 4)
            case None => None
            case Some(count) =>
              match ParseItems(count.value, count.rest, map[])
              case None => None
              case Some(m) => Some(Payload(signer.value, group.value, m.value))
  }

  /** The items list every entry of the map once, in whatever order the map was iterated. */
  predicate Enumerates(items: seq<Item>, m: map<Bytes, Bytes>) {
    && (forall i :: 0 <= i < |items| ==> items[i].key in m && m[items[i].key] == items[i].value)
    && (forall i, j :: 0 <= i < j < |items| ==> items[i].key != items[j].key)
    && (forall k :: k in m ==> exists i :: 0 <= i < |items| && items[i].key == k)
  }

  lemma {:induction false} ParseItemsUndoesPrint(items: seq<Item>, rest: Bytes, m: map<Bytes, Bytes>)
    requires ItemsFit(items)
    ensures ParseItems(|items|, PrintItems(items) + rest, m) == Some(Taken(Insert(m, items), rest))
    decreases |items|
  {
    hide TakeBlob, Blob;
    if items == [] {
      assert PrintItems(items) + rest == rest;
    } else {
      var item, more := items[0], items[1..];
      var afterValue := PrintItems(more) + rest;
      var afterKey := Blob(item.value) + afterValue;
      assert PrintItems(items) + rest == Blob(item.key) + afterKey;
      TakeBlobIff(Blob(item.key) + afterKey, item.key, afterKey);
      TakeBlobIff(afterKey, item.value, afterValue);
      ParseItemsUndoesPrint(more, rest, m[item.key := item.value]);
    }
  }

  lemma {:induction false} InsertLooksUp(m: map<Bytes, Bytes>, items: seq<Item>, k: Bytes)
    requires forall i, j :: 0 <= i < j < |items| ==> items[i].key != items[j].key
    ensures k in Insert(m, items) <==> k in m || exists i :: 0 <= i < |items| && items[i].key == k
    ensures forall i :: 0 <= i < |items| && items[i].key == k ==> Insert(m, items)[k] == items[i].value
    ensures k in m && (forall i :: 0 <= i < |items| ==> items[i].key != k) ==> Insert(m, items)[k] == m[k]
    decreases |items|
  {
    if items != [] {
      var m', more := m[items[0].key := items[0].value], items[1..];
      InsertLooksUp(m', more, k);
      assert forall i :: 1 <= i < |items| ==> items[i] == more[i - 1];
      if items[0].key == k {
        assert forall i :: 0 <= i < |more| ==> more[i].key != k;
      }
    }
  }

  lemma InsertRebuilds(items: seq<Item>, m: map<Bytes, Bytes>)
    requires Enumerates(items, m)
    ensures Insert(map[], items) == m
  {
    forall k: Bytes ensures k in Insert(map[], items) <==> k in m
    {
      InsertLooksUp(map[], items, k);
    }
    forall k | k in m ensures Insert(map[], items)[k] == m[k] {
      InsertLooksUp(map[], items, k);
      var i :| 0 <= i < |items| && items[i].key == k;
    }
  }

  /** Whatever order the storage was iterated in, reading the payload back yields the same storage. */
  lemma PayloadRoundTrip(signer: Bytes, groupId: Bytes, items: seq<Item>, m: map<Bytes, Bytes>, trailing: Bytes)
    requires |signer| < U32_LIMIT && |groupId| < U32_LIMIT && |items| < U32_LIMIT
    requires ItemsFit(items) && Enumerates(items, m)
    ensures ParsePayload(PrintPayload(signer, groupId, items) + trailing) == Some(Payload(signer, groupId, m))
  {
    hide ParsePayload, PrintPayload, ItemsFit, Enumerates;
    InsertRebuilds(items, m);
    PayloadBackward(Payload(signer, groupId, m), items, trailing);
  }

  // ---------------------------------------------------------------- conversations

  datatype Group = Group(id: Bytes, epoch: nat)

  /** Reading the signer and loading the group from the restored storage; both belong to OpenMLS. */
  type Loader = Payload -> Option<Group>

  datatype Conversation = Conversation(payload: Payload, group: Group)

  function Seal(hash: Hasher, c: Conversation, items: seq<Item>, stateVersion: Option<nat>): Envelope {
    var payload := PrintPayload(c.payload.signer, c.group.id, items);
    Envelope(APP_SCHEMA, OPENMLS_VERSION, SUITE, c.group.id,
             Body(c.group.epoch, stateVersion, Tail(hash(payload), payload)))
  }

  /** V1 without a state version, V2 with one. */
  function Snap(hash: Hasher, c: Conversation, items: seq<Item>, stateVersion: Option<nat>): Bytes {
    Print(Seal(hash, c, items, stateVersion))
  }

  predicate Supported(hash: Hasher, e: Envelope) {
    && e.schema == APP_SCHEMA && e.version == OPENMLS_VERSION && e.suite == SUITE
    && hash(e.body.tail.payload) == e.body.tail.checksum
  }

  function Load(load: Loader, e: Envelope): Option<Conversation> {
    match ParsePayload(e.body.tail.payload)
    case None => None
    case Some(payload) =>
      match load(payload)
      case None => None
      case Some(group) =>
        if group.id != e.groupId || group.epoch != e.body.epoch then None else Some(Conversation(payload, group))
  }

  function Restore(hash: Hasher, load: Loader, input: Bytes): Option<Conversation> {
    match Parse(input)
    case None => None
    case Some(e) => if Supported(hash, e) then Load(load, e) else None
  }

  datatype Metadata = Metadata(
    schema: nat, version: Bytes, suite: Bytes, groupId: Bytes, epoch: nat, stateVersion: Option<nat>,
    snapshotHash: Bytes)

  function MetadataOf(e: Envelope): Metadata {
    Metadata(e.schema, e.version, e.suite, e.groupId, e.body.epoch, e.body.stateVersion, e.body.tail.checksum)
  }

  /** The metadata path checks the checksum but neither schema, version nor suite. */
  function ParseMetadata(hash: Hasher, input: Bytes): Option<Metadata> {
    match Parse(input)
    case None => None
    case Some(e) => if hash(e.body.tail.payload) == e.body.tail.checksum then Some(MetadataOf(e)) else None
  }

  function Migrate(hash: Hasher, load: Loader, input: Bytes, items: seq<Item>, next: nat): Option<Bytes> {
    if HEADER_V1 <= input then
      match Restore(hash, load, input)
      case None => None
      case Some(c) => Some(Snap(hash, c, items, Some(next)))
    else None
  }

  /** The bytes are a snapshot of the conversation in some iteration order of its storage. */
  ghost predicate IsSnapshot(hash: Hasher, c: Conversation, stateVersion: Option<nat>, bytes: Bytes) {
    exists items :: Enumerates(items, c.payload.storage) && bytes == Snap(hash, c, items, stateVersion)
  }

  ghost predicate IsPayload(signer: Bytes, groupId: Bytes, storage: map<Bytes, Bytes>, bytes: Bytes) {
    exists items :: Enumerates(items, storage) && bytes == PrintPayload(signer, groupId, items)
  }

  /** Lengths stay below the 32-bit prefixes and the numbers below 64 bits. */
  predicate Storable(c: Conversation, items: seq<Item>, stateVersion: Option<nat>) {
    && |c.payload.signer| < U32_LIMIT && |c.group.id| < U32_LIMIT && |items| < U32_LIMIT && ItemsFit(items)
    && |PrintPayload(c.payload.signer, c.group.id, items)| < U32_LIMIT
    && c.group.epoch < U64_LIMIT && (stateVersion.Some? ==> stateVersion.value < U64_LIMIT)
  }

  lemma SealFits(hash: Hasher, c: Conversation, items: seq<Item>, stateVersion: Option<nat>)
    requires Storable(c, items, stateVersion)
    ensures Fits(Seal(hash, c, items, stateVersion)) && Supported(hash, Seal(hash, c, items, stateVersion))
  {
    hide PrintPayload, ItemsFit;
    assert |SUITE| == |"MLS_128_DHKEMX25519_AES128GCM_SHA256_Ed25519"| == 44;
  }

  /**
   Restoring undoes taking a snapshot, V1 and V2, for every iteration order of the storage; and the metadata read
   from the same bytes is the conversation's.
   */
  lemma SnapshotRoundTrip(hash: Hasher, load: Loader, c: Conversation, items: seq<Item>, stateVersion: Option<nat>)
    requires Storable(c, items, stateVersion) && Enumerates(items, c.payload.storage)
    requires c.payload.groupId == c.group.id && load(c.payload) == Some(c.group)
    ensures Restore(hash, load, Snap(hash, c, items, stateVersion)) == Some(c)
    ensures ParseMetadata(hash, Snap(hash, c, items, stateVersion)) == Some(Metadata(
              APP_SCHEMA, OPENMLS_VERSION, SUITE, c.group.id, c.group.epoch, stateVersion,
              hash(PrintPayload(c.payload.signer, c.group.id, items))))
  {
    SealFits(hash, c, items, stateVersion);
    var e := Seal(hash, c, items, stateVersion);
    ParseIff(Print(e), e);
    PayloadRoundTrip(c.payload.signer, c.group.id, items, c.payload.storage, []);
    hide Parse, Print, Fits, ParsePayload, PrintPayload, Enumerates, Ascii;
    assert PrintPayload(c.payload.signer, c.group.id, items) + [] == PrintPayload(c.payload.signer, c.group.id, items);
  }

  /** Whatever the restore path accepts, the metadata path accepts with the same group, epoch and hash. */
  lemma RestoreImpliesMetadata(hash: Hasher, load: Loader, input: Bytes)
    requires Restore(hash, load, input).Some?
    ensures ParseMetadata(hash, input).Some? && Parse(input).Some?
    ensures var c, m, payload :=
              Restore(hash, load, input).value, ParseMetadata(hash, input).value, Parse(input).value.body.tail.payload;
            && m.groupId == c.group.id && m.epoch == c.group.epoch
            && m.snapshotHash == hash(payload) && ParsePayload(payload) == Some(c.payload)
            && (m.stateVersion.Some? <==> HEADER_V2 <= input)
  {
    hide ParsePayload, Fits, PrintNames, Ascii;
    var e := Parse(input).value;
    ParseIff(input, e);
    HeadersDiffer();
    assert HeaderOf(e) <= input;
    assert HEADER_V2 <= input ==> input[..6] == HEADER_V2;
  }

  /** Migrating V1 to V2 keeps the conversation and stamps the requested state version. */
  lemma MigrationPreserves(hash: Hasher, load: Loader, input: Bytes, items: seq<Item>, next: nat)
    requires forall p: Payload :: load(p).Some? ==> load(p).value.id == p.groupId
    requires Restore(hash, load, input).Some? && HEADER_V1 <= input
    requires var c := Restore(hash, load, input).value;
             Storable(c, items, Some(next)) && Enumerates(items, c.payload.storage)
    ensures var v2 := Migrate(hash, load, input, items, next);
            && v2.Some? && Restore(hash, load, v2.value) == Restore(hash, load, input)
            && ParseMetadata(hash, v2.value).Some? && ParseMetadata(hash, v2.value).value.stateVersion == Some(next)
  {
    hide Parse, Snap, Storable, Enumerates, Ascii, Supported;
    var c := Restore(hash, load, input).value;
    RestoredLoads(hash, load, input);
    SnapshotRoundTrip(hash, load, c, items, Some(next));
  }

  lemma RestoredLoads(hash: Hasher, load: Loader, input: Bytes)
    requires Restore(hash, load, input).Some?
    ensures var c := Restore(hash, load, input).value; load(c.payload) == Some(c.group)
  {
    hide Parse, Supported, ParsePayload;
  }

  // ---------------------------------------------------------------- exactly what is accepted

  lemma {:induction false} ParsedItems(count: nat, input: Bytes, m: map<Bytes, Bytes>, r: Taken<map<Bytes, Bytes>>)
      returns (items: seq<Item>)
    requires ParseItems(count, input, m) == Some(r)
    ensures |items| == count && ItemsFit(items) && input == PrintItems(items) + r.rest && r.value == Insert(m, items)
    decreases count
  {
    hide TakeBlob, Blob;
    if count == 0 {
      items := [];
      assert PrintItems([]) + r.rest == r.rest;
    } else {
      var key := TakeBlob(input).value;
      var value := TakeBlob(key.rest).value;
      TakeBlobIff(input, key.value, key.rest);
      TakeBlobIff(key.rest, value.value, value.rest);
      var more := ParsedItems(count - 1, value.rest, m[key.value := value.value], r);
      items := [Item(key.value, value.value)] + more;
      assert items[1..] == more;
      assert input == Blob(key.value) + (Blob(value.value) + PrintItems(more)) + r.rest;
    }
  }

  /** The bytes start with a printed payload whose items, inserted one after the other, make this storage. */
  ghost predicate StartsWithPayload(input: Bytes, p: Payload) {
    exists items, trailing :: PayloadFits(p, items) && input == PrintPayload(p.signer, p.groupId, items) + trailing
  }

  predicate PayloadFits(p: Payload, items: seq<Item>) {
    && |p.signer| < U32_LIMIT && |p.groupId| < U32_LIMIT && |items| < U32_LIMIT && ItemsFit(items)
    && Insert(map[], items) == p.storage
  }

  lemma PayloadBackward(p: Payload, items: seq<Item>, trailing: Bytes)
    requires PayloadFits(p, items)
    ensures ParsePayload(PrintPayload(p.signer, p.groupId, items) + trailing) == Some(p)
  {
    Widths();
    HeadersDiffer();
    hide Take, TakeUint, TakeBlob, Blob, Be, ItemsFit, PrintItems, ParseItems, Ascii, Insert;
    var afterCount := PrintItems(items) + trailing;
    var afterGroup := Be(|items|, 4) + afterCount;
    var afterSigner := Blob(p.groupId) + afterGroup;
    var afterHeader := Blob(p.signer) + afterSigner;
    assert PrintPayload(p.signer, p.groupId, items) + trailing == HEADER_V1 + afterHeader;
    TakeIff(HEADER_V1 + afterHeader, 6, HEADER_V1, afterHeader);
    TakeBlobIff(afterHeader, p.signer, afterSigner);
    TakeBlobIff(afterSigner, p.groupId, afterGroup);
    TakeUintIff(afterGroup, 4, |items|, afterCount);
    ParseItemsUndoesPrint(items, trailing, map[]);
  }

  lemma PayloadForward(input: Bytes, p: Payload)
    requires ParsePayload(input) == Some(p)
    ensures StartsWithPayload(input, p)
  {
    Widths();
    hide Take, TakeUint, TakeBlob, Blob, Be, ItemsFit, PrintItems, ParseItems, Ascii, Insert;
    var h := Take(input, 6).value;
    TakeIff(input, 6, h.value, h.rest);
    var signer := TakeBlob(h.rest).value;
    TakeBlobIff(h.rest, signer.value, signer.rest);
    var group := TakeBlob(signer.rest).value;
    TakeBlobIff(signer.rest, group.value, group.rest);
    var count := TakeUint(group.rest, 4).value;
    TakeUintIff(group.rest, 4, count.value, count.rest);
    var r := ParseItems(count.value, count.rest, map[]).value;
    var items := ParsedItems(count.value, count.rest, map[], r);
    assert input == HEADER_V1 + (Blob(p.signer) + (Blob(p.groupId) + (Be(|items|, 4) + PrintItems(items)))) + r.rest;
    assert PayloadFits(p, items) && input == PrintPayload(p.signer, p.groupId, items) + r.rest;
  }

  /** The payload parser accepts exactly the byte strings that start with a printed payload, and returns it. */
  lemma PayloadIff(input: Bytes, p: Payload)
    ensures ParsePayload(input) == Some(p) <==> StartsWithPayload(input, p)
  {
    hide ParsePayload, PrintPayload, PayloadFits;
    if ParsePayload(input) == Some(p) { PayloadForward(input, p); }
    if StartsWithPayload(input, p) {
      var items, trailing :| PayloadFits(p, items) && input == PrintPayload(p.signer, p.groupId, items) + trailing;
      PayloadBackward(p, items, trailing);
    }
  }

  /** The bytes are a printed envelope of this format whose checksum is that of its payload. */
  predicate Intact(hash: Hasher, input: Bytes, e: Envelope) {
    Fits(e) && input == Print(e) && hash(e.body.tail.payload) == e.body.tail.checksum
  }

  /** The envelope names this build's formats, and its payload loads as a group with the envelope's id and epoch. */
  predicate Describes(load: Loader, e: Envelope, c: Conversation) {
    && e.schema == 1 && e.version == Ascii("0.8.1") && e.suite == SUITE
    && ParsePayload(e.body.tail.payload) == Some(c.payload) && load(c.payload) == Some(c.group)
    && c.group.id == e.groupId && c.group.epoch == e.body.epoch
  }

  /**
   A snapshot restores to a conversation if and only if it is the printed form of an envelope with a matching
   checksum, of the supported schema, version and suite, whose payload loads as exactly this conversation.
   */
  lemma RestoreIff(hash: Hasher, load: Loader, input: Bytes, c: Conversation)
    ensures Restore(hash, load, input) == Some(c) <==>
            exists e :: Intact(hash, input, e) && Describes(load, e, c)
  {
    hide Parse, Print, Fits, ParsePayload, Ascii;
    if Restore(hash, load, input) == Some(c) {
      var e := Parse(input).value;
      ParseIff(input, e);
      assert Intact(hash, input, e) && Describes(load, e, c);
    }
    if exists e :: Intact(hash, input, e) && Describes(load, e, c) {
      var e :| Intact(hash, input, e) && Describes(load, e, c);
      ParseIff(input, e);
    }
  }

  /** Only a V1 snapshot that restores is migrated. */
  lemma MigratesIff(hash: Hasher, load: Loader, input: Bytes, items: seq<Item>, next: nat)
    ensures Migrate(hash, load, input, items, next).Some? <==>
            exists e, c :: Intact(hash, input, e) && Describes(load, e, c) && e.body.stateVersion.None?
  {
    hide Parse, Fits, PrintNames, ParsePayload, Ascii, Restore;
    HeadersDiffer();
    forall e | Intact(hash, input, e) ensures HEADER_V1 <= input <==> e.body.stateVersion.None? {
      assert HeaderOf(e) <= input;
      assert HEADER_V1 <= input ==> input[..6] == HEADER_V1;
    }
    if Restore(hash, load, input).Some? { RestoreIff(hash, load, input, Restore(hash, load, input).value); }
    forall e, c | Intact(hash, input, e) && Describes(load, e, c) ensures Restore(hash, load, input) == Some(c) {
      RestoreIff(hash, load, input, c);
    }
  }

  /** Metadata is read exactly from printed envelopes with a matching checksum, and is what the envelope says. */
  lemma MetadataIff(hash: Hasher, input: Bytes, m: Metadata)
    ensures ParseMetadata(hash, input) == Some(m) <==>
            exists e :: Intact(hash, input, e)
                        && m.schema == e.schema && m.version == e.version && m.suite == e.suite
                        && m.groupId == e.groupId && m.epoch == e.body.epoch
                        && m.stateVersion == e.body.stateVersion && m.snapshotHash == hash(e.body.tail.payload)
  {
    hide Parse, Print, Fits, Ascii;
    if ParseMetadata(hash, input) == Some(m) {
      var e := Parse(input).value;
      ParseIff(input, e);
      assert Intact(hash, input, e);
    }
    forall e | Intact(hash, input, e) ensures Parse(input) == Some(e) { ParseIff(input, e); }
  }
}
