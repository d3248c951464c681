/** Byte by byte: what the accounts of the program look like on chain, and that the parsers accept nothing else. */
module Formats {
  import opened Outcomes
  import opened Octets
  import opened Layouts

  // ---- Numbers and addresses at an offset ----

  /** The w bytes from an offset are a number, the lowest byte first. */
  predicate NumberAt(d: Bytes, at: nat, w: nat, x: nat)
    requires at + w <= |d|
    decreases w
  {
    if w == 0 then x == 0 else d[at] == B(x % 256) && NumberAt(d, at + 1, w - 1, x / 256)
  }

  /** The 32 bytes from an offset are those of an address. */
  predicate AddressAt(d: Bytes, at: nat, k: Key)
    requires at + 32 <= |d|
  {
    forall i :: 0 <= i < 32 ==> d[at + i] == K(k, i)
  }

  /** The first eight bytes tell what kind of account it is: one number below 256, then zeroes. */
  predicate Tagged(d: Bytes, tag: byte)
    requires |d| >= 8
  {
    d[0] == B(tag) && forall i :: 1 <= i < 8 ==> d[i] == B(0)
  }

  lemma {:induction false} LeAt(front: Bytes, x: nat, w: nat, back: Bytes)
    requires x < Pow256(w)
    ensures NumberAt(front + LeBytes(x, w) + back, |front|, w, x)
    decreases w
  {
    if w > 0 {
      var rest := LeBytes(x / 256, w - 1);
      LeAt(front + [B(x % 256)], x / 256, w - 1, back);
      assert front + LeBytes(x, w) + back == front + [B(x % 256)] + rest + back;
    }
  }

  lemma U64At(front: Bytes, x: u64, back: Bytes, d: Bytes)
    requires d == front + LeBytes(x, 8) + back
    ensures NumberAt(d, |front|, 8, x)
  {
    Pow256Of8();
    LeAt(front, x, 8, back);
  }

  lemma U32At(front: Bytes, x: u32, back: Bytes, d: Bytes)
    requires d == front + LeBytes(x, 4) + back
    ensures NumberAt(d, |front|, 4, x)
  {
    Pow256Of4();
    LeAt(front, x, 4, back);
  }

  lemma {:induction false} ZeroBytes(w: nat)
    ensures forall i :: 0 <= i < w ==> LeBytes(0, w)[i] == B(0)
  {
    if w > 0 {
      ZeroBytes(w - 1);
    }
  }

  lemma TagAt(tag: byte, back: Bytes)
    ensures Tagged(Discriminator(tag) + back, tag)
  {
    ZeroBytes(7);
    assert LeBytes(tag, 8) == [B(tag)] + LeBytes(0, 7);
  }

  // ---- The four layouts ----

  /** A delegation record: tag 100, authority at 8, owner at 40, delegation slot at 72, lamports at 80, commit frequency
      at 88; 96 bytes. */
  lemma RecordLayout(r: DelegationRecord)
    ensures var d := EncodeRecord(r);
            && |d| == 96 && Tagged(d, 100)
            && AddressAt(d, 8, r.authority) && AddressAt(d, 40, r.owner)
            && NumberAt(d, 72, 8, r.delegationSlot) && NumberAt(d, 80, 8, r.lamports)
            && NumberAt(d, 88, 8, r.commitFrequencyMs)
  {
    hide LeBytes, Pow256, NumberAt, Tagged;
    var d := EncodeRecord(r);
    TagAt(100, RecordBody(r));
    var front := Discriminator(RECORD_TAG) + KeyBytes(r.authority) + KeyBytes(r.owner);
    var slot, lamports, frequency :=
        LeBytes(r.delegationSlot, 8), LeBytes(r.lamports, 8), LeBytes(r.commitFrequencyMs, 8);
    U64At(front, r.delegationSlot, lamports + frequency, d);
    U64At(front + slot, r.lamports, frequency, d);
    U64At(front + slot + lamports, r.commitFrequencyMs, [], d);
  }

  /** A commit record: tag 101, committing identity at 8, account at 40, slot at 72, lamports at 80; 88 bytes. */
  lemma CommitRecordLayout(r: CommitRecordData)
    ensures var d := EncodeCommitRecord(r);
            && |d| == 88 && Tagged(d, 101)
            && AddressAt(d, 8, r.identity) && AddressAt(d, 40, r.account)
            && NumberAt(d, 72, 8, r.slot) && NumberAt(d, 80, 8, r.lamports)
  {
    hide LeBytes, Pow256, NumberAt, Tagged;
    var d := EncodeCommitRecord(r);
    TagAt(101, CommitRecordBody(r));
    var front := Discriminator(COMMIT_RECORD_TAG) + KeyBytes(r.identity) + KeyBytes(r.account);
    U64At(front, r.slot, LeBytes(r.lamports, 8), d);
    U64At(front + LeBytes(r.slot, 8), r.lamports, [], d);
  }

  /** How many bytes a list of seeds takes after its count: four for the length of each, and the seed. */
  function SeedsSize(seeds: seq<Bytes>): nat {
    if seeds == [] then 0 else 4 + |seeds[0]| + SeedsSize(seeds[1..])
  }

  /** The seeds lie one after the other from an offset, each behind its length. */
  predicate SeedsAt(d: Bytes, at: nat, seeds: seq<Bytes>)
    requires at + SeedsSize(seeds) <= |d|
    decreases |seeds|
  {
    seeds == [] ||
    (&& NumberAt(d, at, 4, |seeds[0]|)
     && d[at + 4..at + 4 + |seeds[0]|] == seeds[0]
     && SeedsAt(d, at + 4 + |seeds[0]|, seeds[1..]))
  }

  lemma {:induction false} BlobsSize(seeds: seq<Bytes>)
    ensures |BlobsBytes(seeds)| == SeedsSize(seeds)
  {
    if seeds != [] {
      BlobsSize(seeds[1..]);
    }
  }

  lemma {:induction false} BlobsAt(front: Bytes, seeds: seq<Bytes>, back: Bytes, d: Bytes)
    requires d == front + BlobsBytes(seeds) + back
    requires forall b :: b in seeds ==> |b| < 0x1_0000_0000
    ensures |BlobsBytes(seeds)| == SeedsSize(seeds) && SeedsAt(d, |front|, seeds)
    decreases |seeds|
  {
    hide LeBytes, NumberAt;
    BlobsSize(seeds);
    if seeds != [] {
      var length, others := LeBytes(|seeds[0]|, 4), BlobsBytes(seeds[1..]);
      assert d == front + length + (seeds[0] + others + back);
      U32At(front, |seeds[0]|, seeds[0] + others + back, d);
      assert d == (front + length + seeds[0]) + others + back;
      BlobsAt(front + length + seeds[0], seeds[1..], back, d);
    }
  }

  /** Delegation metadata: tag 102, last slot at 8, flag at 16, the count of the seeds at 17, the seeds from 21 on, and
      the rent payer in the last 32 bytes. */
  lemma MetadataLayout(m: DelegationMetadata)
    requires |m.seeds| < 0x1_0000_0000 && forall b :: b in m.seeds ==> |b| < 0x1_0000_0000
    ensures var d := EncodeMetadata(m);
            && |d| == 53 + SeedsSize(m.seeds) && Tagged(d, 102)
            && NumberAt(d, 8, 8, m.lastUpdateExternalSlot)
            && d[16] == B(if m.isUndelegatable then 1 else 0)
            && NumberAt(d, 17, 4, |m.seeds|) && SeedsAt(d, 21, m.seeds)
            && AddressAt(d, |d| - 32, m.rentPayer)
  {
    hide LeBytes, Pow256, NumberAt, Tagged, BlobsBytes, SeedsAt;
    var d := EncodeMetadata(m);
    TagAt(102, MetadataBody(m));
    var tag, slot := Discriminator(METADATA_TAG), LeBytes(m.lastUpdateExternalSlot, 8);
    var flag := BoolBytes(m.isUndelegatable);
    var count, blobs, payer := LeBytes(|m.seeds|, 4), BlobsBytes(m.seeds), KeyBytes(m.rentPayer);
    assert d == tag + slot + (flag + count + blobs + payer);
    U64At(tag, m.lastUpdateExternalSlot, flag + count + blobs + payer, d);
    assert d == (tag + slot + flag) + count + (blobs + payer);
    U32At(tag + slot + flag, |m.seeds|, blobs + payer, d);
    assert d == (tag + slot + flag + count) + blobs + payer;
    BlobsAt(tag + slot + flag + count, m.seeds, payer, d);
    assert d == (tag + slot + flag + count + blobs) + payer;
  }

  lemma {:induction false} KeysAt(front: Bytes, keys: seq<Key>, d: Bytes)
    requires d == front + KeysBytes(keys)
    ensures forall i :: 0 <= i < |keys| ==> AddressAt(d, |front| + 32 * i, keys[i])
    decreases |keys|
  {
    if keys != [] {
      var front' := front + KeyBytes(keys[0]);
      assert d == front' + KeysBytes(keys[1..]);
      KeysAt(front', keys[1..], d);
      assert AddressAt(d, |front|, keys[0]) by {
        assert d == front + (KeyBytes(keys[0]) + KeysBytes(keys[1..]));
      }
      forall i | 0 <= i < |keys| ensures AddressAt(d, |front| + 32 * i, keys[i]) {
        if i > 0 {
          assert AddressAt(d, |front'| + 32 * (i - 1), keys[1..][i - 1]);
        }
      }
    }
  }

  /** A program config: tag 103, the count of the validators at 8, and their addresses from 12 on. */
  lemma ConfigLayout(listed: seq<Key>)
    requires |listed| < 0x1_0000_0000
    ensures var d := EncodeConfig(listed);
            && |d| == 12 + 32 * |listed| && Tagged(d, 103) && NumberAt(d, 8, 4, |listed|)
            && forall i :: 0 <= i < |listed| ==> AddressAt(d, 12 + 32 * i, listed[i])
  {
    hide LeBytes, Pow256, NumberAt, Tagged, KeysBytes, AddressAt;
    var d := EncodeConfig(listed);
    var tag, count, keys := Discriminator(CONFIG_TAG), LeBytes(|listed|, 4), KeysBytes(listed);
    TagAt(103, count + (keys + []));
    U32At(tag, |listed|, keys, d);
    assert d == (tag + count) + keys;
    KeysAt(tag + count, listed, d);
  }

  /** Writing into an account keeps its length and what lies behind; more than fits cannot be written. */
  lemma OverwrittenAt(data: Bytes, bytes: Bytes)
    ensures var r := Overwrite(data, bytes);
            if |bytes| > |data| then r == Err(WriteZero)
            else
              && r.Ok? && |r.value| == |data|
              && forall i :: 0 <= i < |data| ==> r.value[i] == if i < |bytes| then bytes[i] else data[i]
  {}

  // ---- Nothing else is accepted ----

  /** A number that can be read is written as the bytes it was read from. */
  lemma {:induction false} LeCanonical(s: Bytes)
    requires LeValue(s).Some?
    ensures LeBytes(LeValue(s).value, |s|) == s
  {
    if s != [] {
      LeCanonical(s[1..]);
      assert s == [s[0]] + s[1..];
    }
  }

  lemma U64Canonical(d: Bytes)
    requires TakeU64(d).Parsed?
    ensures d == LeBytes(TakeU64(d).value, 8) + TakeU64(d).rest
  {
    LeCanonical(d[..8]);
  }

  lemma U32Canonical(d: Bytes)
    requires TakeU32(d).Parsed?
    ensures d == LeBytes(TakeU32(d).value, 4) + TakeU32(d).rest
  {
    LeCanonical(d[..4]);
  }

  lemma KeyCanonical(d: Bytes)
    requires TakeKey(d).Parsed?
    ensures d == KeyBytes(TakeKey(d).value) + TakeKey(d).rest
  {}

  lemma BoolCanonical(d: Bytes)
    requires TakeBool(d).Parsed?
    ensures d == BoolBytes(TakeBool(d).value) + TakeBool(d).rest
  {}

  lemma BlobCanonical(d: Bytes)
    requires TakeBlob(d).Parsed?
    ensures d == BlobBytes(TakeBlob(d).value) + TakeBlob(d).rest && |TakeBlob(d).value| < 0x1_0000_0000
  {
    hide LeBytes, LeValue;
    U32Canonical(d);
    var rest := TakeU32(d).rest;
    assert rest == TakeBlob(d).value + TakeBlob(d).rest;
  }

  lemma {:induction false} BlobsCanonical(n: nat, d: Bytes)
    requires TakeBlobs(n, d).Parsed?
    ensures var p := TakeBlobs(n, d);
            && d == BlobsBytes(p.value) + p.rest && |p.value| == n
            && forall b :: b in p.value ==> |b| < 0x1_0000_0000
  {
    hide TakeBlob, BlobBytes;
    if n > 0 {
      BlobCanonical(d);
      var first, p := TakeBlob(d), TakeBlobs(n, d);
      BlobsCanonical(n - 1, first.rest);
      var others := TakeBlobs(n - 1, first.rest);
      assert p.value[1..] == others.value;
      assert BlobsBytes(p.value) == BlobBytes(first.value) + BlobsBytes(others.value);
    }
  }

  lemma {:induction false} KeysCanonical(n: nat, d: Bytes)
    requires TakeKeys(n, d).Parsed?
    ensures d == KeysBytes(TakeKeys(n, d).value) + TakeKeys(n, d).rest && |TakeKeys(n, d).value| == n
  {
    hide TakeKey, KeyBytes;
    if n > 0 {
      KeyCanonical(d);
      var first, p := TakeKey(d), TakeKeys(n, d);
      KeysCanonical(n - 1, first.rest);
      var others := TakeKeys(n - 1, first.rest);
      assert p.value[1..] == others.value;
      assert KeysBytes(p.value) == KeyBytes(first.value) + KeysBytes(others.value);
    }
  }

  lemma BodyCanonical(tag: byte, data: Bytes)
    requires Body(tag, data).Ok?
    ensures data == Discriminator(tag) + Body(tag, data).value
  {}

  /** The parser of records accepts exactly what the writer produces. */
  lemma RecordCanonical(data: Bytes, r: DelegationRecord)
    ensures DecodeRecord(data) == Ok(r) <==> data == EncodeRecord(r)
  {
    RecordRoundTrip(r);
    hide TakeKey, TakeU64, KeyBytes, LeBytes;
    if DecodeRecord(data) == Ok(r) {
      BodyCanonical(RECORD_TAG, data);
      var d := Body(RECORD_TAG, data).value;
      KeyCanonical(d);
      var d1 := TakeKey(d).rest;
      KeyCanonical(d1);
      var d2 := TakeKey(d1).rest;
      U64Canonical(d2);
      var d3 := TakeU64(d2).rest;
      U64Canonical(d3);
      U64Canonical(TakeU64(d3).rest);
    }
  }

  /** So does the parser of commit records. */
  lemma CommitRecordCanonical(data: Bytes, r: CommitRecordData)
    ensures DecodeCommitRecord(data) == Ok(r) <==> data == EncodeCommitRecord(r)
  {
    CommitRecordRoundTrip(r);
    hide TakeKey, TakeU64, KeyBytes, LeBytes;
    if DecodeCommitRecord(data) == Ok(r) {
      BodyCanonical(COMMIT_RECORD_TAG, data);
      var d := Body(COMMIT_RECORD_TAG, data).value;
      KeyCanonical(d);
      var d1 := TakeKey(d).rest;
      KeyCanonical(d1);
      var d2 := TakeKey(d1).rest;
      U64Canonical(d2);
      U64Canonical(TakeU64(d2).rest);
    }
  }

  /** And the parser of metadata, for every list of seeds that can be written at all. */
  lemma MetadataCanonical(data: Bytes, m: DelegationMetadata)
    ensures DecodeMetadata(data) == Ok(m) <==>
              && |m.seeds| < 0x1_0000_0000 && (forall b :: b in m.seeds ==> |b| < 0x1_0000_0000)
              && data == EncodeMetadata(m)
  {
    hide TakeKey, TakeU64, TakeU32, TakeBool, TakeBlobs, KeyBytes, LeBytes, BlobsBytes, BoolBytes;
    if Encodable(m.seeds) {
      MetadataRoundTrip(m);
    }
    if DecodeMetadata(data) == Ok(m) {
      BodyCanonical(METADATA_TAG, data);
      var d := Body(METADATA_TAG, data).value;
      U64Canonical(d);
      var d1 := TakeU64(d).rest;
      BoolCanonical(d1);
      var d2 := TakeBool(d1).rest;
      U32Canonical(d2);
      var d3 := TakeU32(d2).rest;
      BlobsCanonical(TakeU32(d2).value, d3);
      KeyCanonical(TakeBlobs(TakeU32(d2).value, d3).rest);
    }
  }

  /** A config parses to a set exactly if it lists the members of the set, in any order and perhaps repeatedly. */
  lemma ConfigCanonical(data: Bytes, members: set<Key>)
    ensures DecodeConfig(data) == Ok(members) <==>
              exists listed: seq<Key> ::
                |listed| < 0x1_0000_0000 && (set k | k in listed) == members && data == EncodeConfig(listed)
  {
    hide TakeU32, TakeKeys, LeBytes, KeysBytes;
    if DecodeConfig(data) == Ok(members) {
      BodyCanonical(CONFIG_TAG, data);
      var d := Body(CONFIG_TAG, data).value;
      U32Canonical(d);
      var n, d1 := TakeU32(d).value, TakeU32(d).rest;
      KeysCanonical(n, d1);
      var listed := TakeKeys(n, d1).value;
      assert data == EncodeConfig(listed);
    }
    forall listed: seq<Key>
      | |listed| < 0x1_0000_0000 && (set k | k in listed) == members && data == EncodeConfig(listed)
      ensures DecodeConfig(data) == Ok(members)
    {
      var d1 := KeysBytes(listed) + [];
      BodyOfWritten(CONFIG_TAG, LeBytes(|listed|, 4) + d1);
      TakeU32Written(|listed|, d1);
      TakeKeysWritten(listed, []);
    }
  }

  // ---- The bytes addresses are derived from ----

  /** The seeds spell a label, then the 32 bytes of an address if there is one, then one more byte if there is one. */
  predicate Spelled(f: Bytes, name: string, of: Option<Key>, index: Option<byte>) {
    && |f| == |name| + (if of.Some? then 32 else 0) + (if index.Some? then 1 else 0)
    && (forall i :: 0 <= i < |name| ==> f[i] == B(name[i] as int % 256))
    && (of.Some? ==> AddressAt(f, |name|, of.value))
    && (index.Some? ==> f[|f| - 1] == B(index.value))
  }

  lemma SpelledOne(name: string)
    ensures Spelled(Flat([Ascii(name)]), name, None, None)
  {
    FlatSeeds(Ascii(name), [], []);
  }

  lemma SpelledTwo(name: string, of: Key)
    ensures Spelled(Flat([Ascii(name), KeyBytes(of)]), name, Some(of), None)
  {
    FlatSeeds(Ascii(name), KeyBytes(of), []);
  }

  lemma SpelledThree(name: string, of: Key, index: byte)
    ensures Spelled(Flat([Ascii(name), KeyBytes(of), [B(index)]]), name, Some(of), Some(index))
  {
    FlatSeeds(Ascii(name), KeyBytes(of), [B(index)]);
  }

  /** Every account of the program is derived by it from the bytes of a fixed label and what it is for. */
  lemma DerivationSpelled(k: Key)
    requires ProgramAddress(k) && !k.Derived?
    ensures Derivation(k).Some? && Derivation(k).value.0 == Dlp
    ensures var f := Flat(Derivation(k).value.1);
            (match k
             case Record(of) => Spelled(f, "delegation", Some(of), None)
             case Metadata(of) => Spelled(f, "delegation-metadata", Some(of), None)
             case CommitState(of) => Spelled(f, "state-diff", Some(of), None)
             case CommitRecord(of) => Spelled(f, "commit-state-record", Some(of), None)
             case UndelegateBuffer(of) => Spelled(f, "undelegate-buffer", Some(of), None)
             case FeesVault => Spelled(f, "fees-vault", None, None)
             case ValidatorVault(of) => Spelled(f, "v-fees-vault", Some(of), None)
             case Config(of) => Spelled(f, "p-conf", Some(of), None)
             case Escrow(of, index) => Spelled(f, "balance", Some(of), Some(index))
             case _ => true)
  {
    hide Flat, Spelled, Ascii, KeyBytes;
    match k
    case Record(of) => SpelledTwo("delegation", of);
    case Metadata(of) => SpelledTwo("delegation-metadata", of);
    case CommitState(of) => SpelledTwo("state-diff", of);
    case CommitRecord(of) => SpelledTwo("commit-state-record", of);
    case UndelegateBuffer(of) => SpelledTwo("undelegate-buffer", of);
    case FeesVault => SpelledOne("fees-vault");
    case ValidatorVault(of) => SpelledTwo("v-fees-vault", of);
    case Config(of) => SpelledTwo("p-conf", of);
    case Escrow(of, index) => SpelledThree("balance", of, index);
    case _ =>
  }

  /** The account an owner program stages bytes in is derived by that program, in the same way. */
  lemma StagingSpelled(d: Key, program: Key)
    ensures var k := DelegateBuffer(d, program);
            k.Derived? && k.program == program && Spelled(Flat(k.seeds), "buffer", Some(d), None)
  {
    SpelledTwo("buffer", d);
  }
}
