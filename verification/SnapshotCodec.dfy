/** The snapshot printers and parsers as they run: a growing output, a shrinking input, and loops over the storage. */
module SnapshotCodec {
  import opened Foundation
  import opened ByteCodec
  import opened Snapshot

  // ---------------------------------------------------------------- printing

  /** Appends a 32-bit length and the value. */
  method WriteBlob(output: Bytes, value: Bytes) returns (out: Bytes)
    ensures out == output + Blob(value)
  {
    out := output + Be(|value| % U32_LIMIT, 4);
    out := out + value;
    assert out == output + Blob(value);
  }

  lemma {:induction false} PrintItemsThen(items: seq<Item>, item: Item)
    ensures PrintItems(items + [item]) == PrintItems(items) + Blob(item.key) + Blob(item.value)
  {
    if items == [] {
      assert items + [item] == [item];
      assert PrintItems([item][1..]) == [];
    } else {
      assert (items + [item])[1..] == items[1..] + [item];
      PrintItemsThen(items[1..], item);
    }
  }

  lemma EnumeratesThen(items: seq<Item>, m: map<Bytes, Bytes>, k: Bytes, v: Bytes)
    requires Enumerates(items, m) && k !in m
    ensures Enumerates(items + [Item(k, v)], m[k := v])
  {
    var more := items + [Item(k, v)];
    assert more[|items|].key == k;
    var m' := m[k := v];
    forall x | x in m' ensures exists i :: 0 <= i < |more| && more[i].key == x {
      if x != k {
        var i :| 0 <= i < |items| && items[i].key == x;
        assert more[i].key == x;
      }
    }
  }

  lemma OneMoreDone(items: seq<Item>, m: map<Bytes, Bytes>, todo: set<Bytes>, k: Bytes)
    requires todo <= m.Keys && k in todo && Enumerates(items, m - todo)
    ensures Enumerates(items + [Item(k, m[k])], m - (todo - {k}))
  {
    hide Enumerates;
    EnumeratesThen(items, m - todo, k, m[k]);
    assert (m - todo)[k := m[k]] == m - (todo - {k});
  }

  lemma EnumeratesInit(items: seq<Item>, m: map<Bytes, Bytes>)
    requires Enumerates(items, m) && items != []
    ensures items[|items| - 1].key in m && Enumerates(items[..|items| - 1], m - {items[|items| - 1].key})
  {
    var init, m' := items[..|items| - 1], m - {items[|items| - 1].key};
    forall k | k in m' ensures exists i :: 0 <= i < |init| && init[i].key == k {
      var i :| 0 <= i < |items| && items[i].key == k;
      assert init[i] == items[i];
    }
  }

  /** An enumeration is as long as the map. */
  lemma {:induction false} EnumeratesCounts(items: seq<Item>, m: map<Bytes, Bytes>)
    requires Enumerates(items, m)
    ensures |items| == |m|
    decreases |items|
  {
    if items == [] {
      assert m == map[];
    } else {
      var init, last := items[..|items| - 1], items[|items| - 1];
      var m' := m - {last.key};
      EnumeratesInit(items, m);
      hide Enumerates;
      EnumeratesCounts(init, m');
      assert m.Keys == m'.Keys + {last.key};
    }
  }

  lemma NothingDone(m: map<Bytes, Bytes>)
    ensures Enumerates([], m - m.Keys)
  {
  }

  lemma AllDone(items: seq<Item>, m: map<Bytes, Bytes>)
    requires Enumerates(items, m - {})
    ensures Enumerates(items, m) && |items| == |m|
  {
    assert m - {} == m;
    EnumeratesCounts(items, m);
  }

  method WriteItem(start: Bytes, item: Item, ghost before: Bytes, ghost items: seq<Item>) returns (output: Bytes)
    requires start == before + PrintItems(items)
    ensures output == before + PrintItems(items + [item])
  {
    hide Blob, PrintItems;
    output := WriteBlob(start, item.key);
    output := WriteBlob(output, item.value);
    PrintItemsThen(items, item);
    assert output == before + (PrintItems(items) + Blob(item.key) + Blob(item.value));
  }

  /** Iterates the storage in no particular order. */
  method WriteItems(start: Bytes, storage: map<Bytes, Bytes>) returns (output: Bytes, ghost items: seq<Item>)
    ensures Enumerates(items, storage) && |items| == |storage|
    ensures output == start + PrintItems(items)
  {
    output, items := start, [];
    assert output == start + PrintItems(items);
    hide Enumerates, PrintItems;
    var todo := storage.Keys;
    NothingDone(storage);
    while todo != {}
      invariant todo <= storage.Keys && Enumerates(items, storage - todo)
      invariant output == start + PrintItems(items)
      decreases |todo|
    {
      var key :| key in todo;
      OneMoreDone(items, storage, todo, key);
      var item := Item(key, storage[key]);
      output := WriteItem(output, item, start, items);
      items := items + [item];
      todo := todo - {key};
    }
    AllDone(items, storage);
  }

  method SnapshotPayload(signer: Bytes, groupId: Bytes, storage: map<Bytes, Bytes>) returns (output: Bytes)
    ensures IsPayload(signer, groupId, storage, output)
  {
    hide Blob, Be, Ascii, Enumerates, PrintItems;
    ghost var items;
    output := HEADER_V1;
    output := WriteBlob(output, signer);
    output := WriteBlob(output, groupId);
    output := output + Be(|storage| % U32_LIMIT, 4);
    output, items := WriteItems(output, storage);
    assert output == PrintPayload(signer, groupId, items);
  }

  method SnapshotCurrent(hash: Hasher, c: Conversation) returns (output: Bytes)
    ensures IsSnapshot(hash, c, None, output)
  {
    hide Blob, Be, PrintPayload, Enumerates, Ascii;
    var payload := SnapshotPayload(c.payload.signer, c.group.id, c.payload.storage);
    ghost var items :| Enumerates(items, c.payload.storage)
        && payload == PrintPayload(c.payload.signer, c.group.id, items);
    output := HEADER_V1;
    output := output + Be(APP_SCHEMA, 2);
    output := WriteBlob(output, OPENMLS_VERSION);
    output := WriteBlob(output, SUITE);
    output := WriteBlob(output, c.group.id);
    output := output + Be(c.group.epoch, 8);
    output := output + hash(payload);
    output := WriteBlob(output, payload);
    assert output == Print(Seal(hash, c, items, None));
  }

  method SnapshotV2(hash: Hasher, c: Conversation, stateVersion: nat) returns (output: Bytes)
    ensures IsSnapshot(hash, c, Some(stateVersion), output)
  {
    hide Blob, Be, PrintPayload, Enumerates, Ascii;
    var payload := SnapshotPayload(c.payload.signer, c.group.id, c.payload.storage);
    ghost var items :| Enumerates(items, c.payload.storage)
        && payload == PrintPayload(c.payload.signer, c.group.id, items);
    output := HEADER_V2;
    output := output + Be(APP_SCHEMA, 2);
    output := WriteBlob(output, OPENMLS_VERSION);
    output := WriteBlob(output, SUITE);
    output := WriteBlob(output, c.group.id);
    output := output + Be(c.group.epoch, 8);
    output := output + Be(stateVersion, 8);
    output := output + hash(payload);
    output := WriteBlob(output, payload);
    assert output == Print(Seal(hash, c, items, Some(stateVersion)));
  }

  // ---------------------------------------------------------------- parsing

  /** The part of the input not yet consumed; a failed take consumes nothing. */
  class Cursor {
    var input: Bytes

    constructor (bytes: Bytes)
      ensures input == bytes
    {
      input := bytes;
    }

    method TakeBytes(n: nat) returns (r: Option<Bytes>)
      modifies this
      ensures match Take(old(input), n)
              case None => r == None && input == old(input)
              case Some(t) => r == Some(t.value) && input == t.rest
    {
      if |input| < n { return None; }
      r := Some(input[..n]);
      input := input[n..];
    }

    method TakeNumber(width: nat) returns (r: Option<nat>)
      modifies this
      ensures match TakeUint(old(input), width)
              case None => r == None
              case Some(t) => r == Some(t.value) && input == t.rest
    {
      var bytes := TakeBytes(width);
      match bytes
      case None => return None;
      case Some(b) => return Some(FromBe(b));
    }

    method TakeText() returns (r: Option<Bytes>)
      modifies this
      ensures match TakeBlob(old(input))
              case None => r == None
              case Some(t) => r == Some(t.value) && input == t.rest
    {
      var length := TakeNumber(4);
      match length
      case None => return None;
      case Some(n) => r := TakeBytes(n);
    }
  }

  /** Fills the storage from `count` key and value blobs. */
  method RestoreItems(cursor: Cursor, count: nat) returns (r: Option<map<Bytes, Bytes>>)
    modifies cursor
    ensures match ParseItems(count, old(cursor.input), map[])
            case None => r == None
            case Some(t) => r == Some(t.value) && cursor.input == t.rest
  {
    hide TakeBlob;
    var values: map<Bytes, Bytes> := map[];
    var k := 0;
    while k < count
      invariant k <= count
      invariant ParseItems(count, old(cursor.input), map[]) == ParseItems(count - k, cursor.input, values)
    {
      var key := cursor.TakeText();
      if key.None? { return None; }
      var value := cursor.TakeText();
      if value.None? { return None; }
      values := values[key.value := value.value];
      k := k + 1;
    }
    return Some(values);
  }

  method RestorePayload(snapshot: Bytes) returns (r: Option<Payload>)
    ensures r == ParsePayload(snapshot)
  {
    hide Take, TakeUint, TakeBlob, ParseItems, Ascii;
    var cursor := new Cursor(snapshot);
    var header := cursor.TakeBytes(6);
    if header != Some(HEADER_V1) { return None; }
    var signer := cursor.TakeText();
    if signer.None? { return None; }
    var groupId := cursor.TakeText();
    if groupId.None? { return None; }
    var count := cursor.TakeNumber(4);
    if count.None? { return None; }
    var storage := RestoreItems(cursor, count.value);
    if storage.None? { return None; }
    return Some(Payload(signer.value, groupId.value, storage.value));
  }

  /** Epoch, optional state version, checksum and payload. */
  method TakeBody(cursor: Cursor, v2: bool) returns (r: Option<Body>)
    modifies cursor
    ensures match ParseBody(v2, old(cursor.input))
            case None => r == None
            case Some(t) => r == Some(t.value) && cursor.input == t.rest
  {
    hide Take, TakeUint, TakeBlob;
    var epoch := cursor.TakeNumber(8);
    if epoch.None? { return None; }
    var stateVersion: Option<nat> := None;
    if v2 {
      stateVersion := cursor.TakeNumber(8);
      if stateVersion.None? { return None; }
    }
    var checksum := cursor.TakeBytes(CHECKSUM_BYTES);
    if checksum.None? { return None; }
    var payload := cursor.TakeText();
    if payload.None? { return None; }
    return Some(Body(epoch.value, stateVersion, Tail(checksum.value, payload.value)));
  }

  /** Checks each field as it is taken, then loads the conversation and compares it with the envelope. */
  method RestoreCurrent(hash: Hasher, load: Loader, snapshot: Bytes) returns (r: Option<Conversation>)
    ensures r == Restore(hash, load, snapshot)
  {
    hide Take, TakeUint, TakeBlob, ParseBody, ParsePayload, Ascii;
    var cursor := new Cursor(snapshot);
    var header := cursor.TakeBytes(6);
    if header.None? || (header.value != HEADER_V1 && header.value != HEADER_V2) { return None; }
    var schema := cursor.TakeNumber(2);
    if schema != Some(APP_SCHEMA) { return None; }
    var version := cursor.TakeText();
    if version != Some(OPENMLS_VERSION) { return None; }
    var suite := cursor.TakeText();
    if suite != Some(SUITE) { return None; }
    var groupId := cursor.TakeText();
    if groupId.None? { return None; }
    var body := TakeBody(cursor, header.value == HEADER_V2);
    if body.None? { return None; }
    var tail := body.value.tail;
    if cursor.input != [] || hash(tail.payload) != tail.checksum { return None; }
    var payload := RestorePayload(tail.payload);
    if payload.None? { return None; }
    var group := load(payload.value);
    if group.None? || group.value.id != groupId.value || group.value.epoch != body.value.epoch { return None; }
    return Some(Conversation(payload.value, group.value));
  }

  method ReadMetadata(hash: Hasher, snapshot: Bytes) returns (r: Option<Metadata>)
    ensures r == ParseMetadata(hash, snapshot)
  {
    hide Take, TakeUint, TakeBlob, ParseBody, Ascii;
    var cursor := new Cursor(snapshot);
    var header := cursor.TakeBytes(6);
    if header.None? || (header.value != HEADER_V1 && header.value != HEADER_V2) { return None; }
    var schema := cursor.TakeNumber(2);
    if schema.None? { return None; }
    var version := cursor.TakeText();
    if version.None? { return None; }
    var suite := cursor.TakeText();
    if suite.None? { return None; }
    var groupId := cursor.TakeText();
    if groupId.None? { return None; }
    var body := TakeBody(cursor, header.value == HEADER_V2);
    if body.None? { return None; }
    var tail := body.value.tail;
    if cursor.input != [] || hash(tail.payload) != tail.checksum { return None; }
    return Some(Metadata(schema.value, version.value, suite.value, groupId.value, body.value.epoch,
                         body.value.stateVersion, tail.checksum));
  }
}
