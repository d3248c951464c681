/** Writing values into the bytes of an account: byte by byte, from the front, the way the serializers do. */
module Writers {
  import opened Outcomes
  import opened Octets
  import opened Layouts

  /** Some bytes with others written over them from a position on. */
  ghost function Spliced(before: Bytes, start: nat, written: Bytes): (r: Bytes)
    requires start + |written| <= |before|
    ensures |r| == |before|
  {
    before[..start] + written + before[start + |written|..]
  }

  lemma SpliceNothing(before: Bytes, start: nat)
    requires start <= |before|
    ensures Spliced(before, start, []) == before
  {}

  lemma SpliceOne(before: Bytes, start: nat, written: Bytes, b: Octet)
    requires start + |written| < |before|
    ensures Spliced(before, start, written)[start + |written| := b] == Spliced(before, start, written + [b])
  {}

  /** Writing in two pieces is writing at once. */
  lemma SpliceThen(before: Bytes, start: nat, first: Bytes, second: Bytes)
    requires start + |first| + |second| <= |before|
    ensures Spliced(Spliced(before, start, first), start + |first|, second) == Spliced(before, start, first + second)
  {
    var middle := Spliced(before, start, first);
    assert middle[..start + |first|] == before[..start] + first;
    assert middle[start + |first| + |second|..] == before[start + |first| + |second|..];
  }

  /** Writing from the front is what Overwrite specifies. */
  lemma SpliceFront(before: Bytes, bytes: Bytes)
    ensures |bytes| <= |before| ==> Overwrite(before, bytes) == Ok(Spliced(before, 0, bytes))
    ensures |bytes| > |before| ==> Overwrite(before, bytes) == Err(WriteZero)
  {
    if |bytes| <= |before| {
      assert before[..0] + bytes == bytes;
    }
  }

  /** Copies bytes into a slice. */
  method CopyInto(data: array<Octet>, start: nat, bytes: Bytes)
    requires start + |bytes| <= data.Length
    modifies data
    ensures data[..] == Spliced(old(data[..]), start, bytes)
  {
    hide Spliced;
    ghost var before := data[..];
    SpliceNothing(before, start);
    var i := 0;
    assert bytes[..0] == [];
    while i < |bytes|
      invariant 0 <= i <= |bytes|
      invariant data[..] == Spliced(before, start, bytes[..i])
    {
      SpliceOne(before, start, bytes[..i], bytes[i]);
      assert bytes[..i + 1] == bytes[..i] + [bytes[i]];
      data[start + i] := bytes[i];
      i := i + 1;
    }
    assert bytes[..|bytes|] == bytes;
  }

  /** A writer over a slice of bytes. It remembers how far it got; what lies beyond is untouched. */
  class SliceWriter {
    const target: array<Octet>
    var at: nat

    constructor (target: array<Octet>)
      ensures this.target == target && at == 0
    {
      this.target := target;
      at := 0;
    }

    ghost predicate Valid()
      reads this
    {
      at <= target.Length
    }

    /** Writes all bytes, or as many as fit and then fails. */
    method WriteAll(bytes: Bytes) returns (fits: bool)
      requires Valid()
      modifies this`at, target
      ensures Valid()
      ensures fits <==> old(at) + |bytes| <= target.Length
      ensures fits ==> at == old(at) + |bytes| && target[..] == Spliced(old(target[..]), old(at), bytes)
    {
      hide Spliced;
      var room := target.Length - at;
      if |bytes| <= room {
        CopyInto(target, at, bytes);
        at := at + |bytes|;
        fits := true;
      } else {
        CopyInto(target, at, bytes[..room]);
        at := target.Length;
        fits := false;
      }
    }
  }

  /** Serializes metadata: discriminator, slot, flag, the number of seeds, every seed behind its length, rent payer. */
  method WriteMetadata(writer: SliceWriter, m: DelegationMetadata) returns (fits: bool)
    requires writer.Valid() && writer.at == 0
    modifies writer`at, writer.target
    ensures Overwrite(old(writer.target[..]), EncodeMetadata(m))
            == if fits then Ok(writer.target[..]) else Err(WriteZero)
  {
    hide LeBytes, BlobBytes, KeyBytes, BoolBytes, Spliced, Overwrite, BlobsBytes;
    ghost var before, all := writer.target[..], EncodeMetadata(m);
    ghost var d1 := Discriminator(METADATA_TAG);
    ghost var d2 := d1 + LeBytes(m.lastUpdateExternalSlot, 8);
    ghost var d3 := d2 + BoolBytes(m.isUndelegatable);
    ghost var d4 := d3 + LeBytes(|m.seeds|, 4);
    ghost var d5 := d4 + BlobsBytes(m.seeds);
    assert all == d5 + KeyBytes(m.rentPayer);
    SpliceFront(before, all);
    fits := writer.WriteAll(Discriminator(METADATA_TAG));
    if !fits { return; }
    fits := writer.WriteAll(LeBytes(m.lastUpdateExternalSlot, 8));
    if !fits { return; }
    SpliceThen(before, 0, d1, LeBytes(m.lastUpdateExternalSlot, 8));
    fits := writer.WriteAll(BoolBytes(m.isUndelegatable));
    if !fits { return; }
    SpliceThen(before, 0, d2, BoolBytes(m.isUndelegatable));
    fits := writer.WriteAll(LeBytes(|m.seeds|, 4));
    if !fits { return; }
    SpliceThen(before, 0, d3, LeBytes(|m.seeds|, 4));
    fits := WriteBlobs(writer, m.seeds);
    if !fits { return; }
    SpliceThen(before, 0, d4, BlobsBytes(m.seeds));
    fits := writer.WriteAll(KeyBytes(m.rentPayer));
    if !fits { return; }
    SpliceThen(before, 0, d5, KeyBytes(m.rentPayer));
  }

  /** Every blob behind its length, one after the other. */
  method WriteBlobs(writer: SliceWriter, blobs: seq<Bytes>) returns (fits: bool)
    requires writer.Valid()
    modifies writer`at, writer.target
    ensures writer.Valid()
    ensures fits <==> old(writer.at) + |BlobsBytes(blobs)| <= writer.target.Length
    ensures fits ==>
              && writer.at == old(writer.at) + |BlobsBytes(blobs)|
              && writer.target[..] == Spliced(old(writer.target[..]), old(writer.at), BlobsBytes(blobs))
  {
    hide LeBytes, Spliced, BlobsBytes;
    ghost var before, start := writer.target[..], writer.at;
    var i := 0;
    BlobsNone(blobs);
    SpliceNothing(before, start);
    while i < |blobs|
      invariant 0 <= i <= |blobs| && writer.Valid()
      invariant writer.at == start + |BlobsBytes(blobs[..i])|
      invariant writer.target[..] == Spliced(before, start, BlobsBytes(blobs[..i]))
    {
      BlobsGrow(blobs, i);
      BlobsPrefix(blobs, i + 1);
      ghost var done := BlobsBytes(blobs[..i]);
      fits := writer.WriteAll(LeBytes(|blobs[i]|, 4));
      if !fits { return; }
      SpliceThen(before, start, done, LeBytes(|blobs[i]|, 4));
      fits := writer.WriteAll(blobs[i]);
      if !fits { return; }
      SpliceThen(before, start, done + LeBytes(|blobs[i]|, 4), blobs[i]);
      assert done + LeBytes(|blobs[i]|, 4) + blobs[i] == done + BlobBytes(blobs[i]);
      i := i + 1;
    }
    fits := true;
    assert blobs[..|blobs|] == blobs;
  }

  lemma BlobsNone(blobs: seq<Bytes>)
    ensures BlobsBytes(blobs[..0]) == []
  {}

  lemma BlobsGrow(blobs: seq<Bytes>, i: nat)
    requires i < |blobs|
    ensures BlobsBytes(blobs[..i + 1]) == BlobsBytes(blobs[..i]) + BlobBytes(blobs[i])
  {
    hide BlobBytes;
    BlobsAppend(blobs[..i], blobs[i]);
    assert blobs[..i + 1] == blobs[..i] + [blobs[i]];
  }

  lemma {:induction false} BlobsAppend(blobs: seq<Bytes>, blob: Bytes)
    ensures BlobsBytes(blobs + [blob]) == BlobsBytes(blobs) + BlobBytes(blob)
  {
    hide BlobBytes;
    if blobs == [] {
      assert BlobsBytes([blob]) == BlobBytes(blob) + BlobsBytes([]);
    } else {
      BlobsAppend(blobs[1..], blob);
      assert (blobs + [blob])[1..] == blobs[1..] + [blob];
    }
  }

  lemma {:induction false} BlobsPrefix(blobs: seq<Bytes>, i: nat)
    requires i <= |blobs|
    ensures |BlobsBytes(blobs[..i])| <= |BlobsBytes(blobs)|
    decreases |blobs| - i
  {
    if i < |blobs| {
      BlobsGrow(blobs, i);
      BlobsPrefix(blobs, i + 1);
    } else {
      assert blobs[..i] == blobs;
    }
  }

  /** Serializes a config: discriminator, the number of validators, and their addresses in order. */
  method WriteConfig(writer: SliceWriter, listed: seq<Key>) returns (fits: bool)
    requires writer.Valid() && writer.at == 0
    modifies writer`at, writer.target
    ensures Overwrite(old(writer.target[..]), EncodeConfig(listed))
            == if fits then Ok(writer.target[..]) else Err(WriteZero)
  {
    hide LeBytes, KeyBytes, Spliced, Overwrite, KeysBytes;
    ghost var before, all := writer.target[..], EncodeConfig(listed);
    ghost var head := Discriminator(CONFIG_TAG) + LeBytes(|listed|, 4);
    assert all == head + KeysBytes(listed);
    SpliceFront(before, all);
    fits := writer.WriteAll(Discriminator(CONFIG_TAG));
    if !fits { return; }
    fits := writer.WriteAll(LeBytes(|listed|, 4));
    if !fits { return; }
    SpliceThen(before, 0, Discriminator(CONFIG_TAG), LeBytes(|listed|, 4));
    var i := 0;
    assert listed[..0] == [] && head + KeysBytes([]) == head;
    while i < |listed|
      invariant 0 <= i <= |listed| && writer.Valid()
      invariant writer.at == |head| + 32 * i
      invariant writer.target[..] == Spliced(before, 0, head + KeysBytes(listed[..i]))
    {
      KeysAppend(listed[..i], listed[i]);
      assert listed[..i + 1] == listed[..i] + [listed[i]];
      ghost var done := head + KeysBytes(listed[..i]);
      fits := writer.WriteAll(KeyBytes(listed[i]));
      if !fits { return; }
      SpliceThen(before, 0, done, KeyBytes(listed[i]));
      assert done + KeyBytes(listed[i]) == head + KeysBytes(listed[..i + 1]);
      i := i + 1;
    }
    assert listed[..|listed|] == listed;
  }

  lemma {:induction false} KeysAppend(keys: seq<Key>, k: Key)
    ensures KeysBytes(keys + [k]) == KeysBytes(keys) + KeyBytes(k)
  {
    hide KeyBytes;
    if keys == [] {
      assert KeysBytes([k]) == KeyBytes(k) + KeysBytes([]);
    } else {
      KeysAppend(keys[1..], k);
      assert (keys + [k])[1..] == keys[1..] + [k];
    }
  }

  /** The fixed layouts: the discriminator into the first eight bytes, the struct over the rest, which must be exactly
      as long. */
  method WriteFixed(data: array<Octet>, tag: byte, body: Bytes) returns (r: Check)
    modifies data
    ensures r == if data.Length < 8 then Fail(InvalidAccountData) else Need(data.Length == 8 + |body|, Panic)
    ensures r.Pass? ==> data[..] == Discriminator(tag) + body
  {
    if data.Length < 8 {
      return Fail(InvalidAccountData);
    }
    ghost var before := data[..];
    CopyInto(data, 0, Discriminator(tag));
    if data.Length != 8 + |body| {
      return Fail(Panic);
    }
    CopyInto(data, 8, body);
    SpliceThen(before, 0, Discriminator(tag), body);
    assert Spliced(before, 0, Discriminator(tag) + body) == Discriminator(tag) + body;
    r := Pass;
  }
}
