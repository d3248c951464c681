/** The byte layouts of the four kinds of account the program writes, with their parsers and in-place writers. */
module Layouts {
  import opened Outcomes
  import opened Octets

  /** What is kept about a delegation: 32 + 32 + 8 + 8 + 8 bytes after the discriminator. */
  datatype DelegationRecord = DelegationRecord(
    authority: Key, owner: Key, delegationSlot: u64, lamports: u64, commitFrequencyMs: u64)

  /** What is needed to end a delegation. Its length depends on the seeds. */
  datatype DelegationMetadata = DelegationMetadata(
    lastUpdateExternalSlot: u64, isUndelegatable: bool, seeds: seq<Bytes>, rentPayer: Key)

  /** What is kept about a commit that is not finalized yet: 32 + 32 + 8 + 8 bytes after the discriminator. */
  datatype CommitRecordData = CommitRecordData(identity: Key, account: Key, slot: u64, lamports: u64)

  const RECORD_TAG: byte := 100
  const COMMIT_RECORD_TAG: byte := 101
  const METADATA_TAG: byte := 102
  const CONFIG_TAG: byte := 103

  const RECORD_SIZE: nat := 96
  const COMMIT_RECORD_SIZE: nat := 88

  /** Offset of the lamports field in the bytes of a delegation record. */
  const RECORD_LAMPORTS_AT: nat := 80

  function Discriminator(tag: byte): (r: Bytes)
    ensures |r| == 8
  {
    LeBytes(tag, 8)
  }

  /** The bytes after the discriminator, or the error every parser gives for a missing or a foreign one. */
  function Body(tag: byte, data: Bytes): Result<Bytes> {
    if |data| < 8 then Err(InvalidAccountData)
    else if data[..8] != Discriminator(tag) then Err(InvalidAccountData)
    else Ok(data[8..])
  }

  lemma BodyOfWritten(tag: byte, body: Bytes)
    ensures Body(tag, Discriminator(tag) + body) == Ok(body)
  {
    var data := Discriminator(tag) + body;
    assert data[..8] == Discriminator(tag) && data[8..] == body;
  }

  /** A parser must consume its input exactly. */
  function Exactly<T>(p: Parsed<T>): Result<T> {
    if p.Parsed? && p.rest == [] then Ok(p.value) else Err(InvalidAccountData)
  }

  // ---- Delegation record ----

  function RecordBody(r: DelegationRecord): Bytes {
    KeyBytes(r.authority) + (KeyBytes(r.owner) +
    (LeBytes(r.delegationSlot, 8) + (LeBytes(r.lamports, 8) + (LeBytes(r.commitFrequencyMs, 8) + []))))
  }

  function EncodeRecord(r: DelegationRecord): (d: Bytes)
    ensures |d| == RECORD_SIZE
  {
    Discriminator(RECORD_TAG) + RecordBody(r)
  }

  function TakeRecord(d: Bytes): Parsed<DelegationRecord> {
    var (authority, d1) :- TakeKey(d);
    var (owner, d2) :- TakeKey(d1);
    var (delegationSlot, d3) :- TakeU64(d2);
    var (lamports, d4) :- TakeU64(d3);
    var (commitFrequencyMs, d5) :- TakeU64(d4);
    Parsed(DelegationRecord(authority, owner, delegationSlot, lamports, commitFrequencyMs), d5)
  }

  function DecodeRecord(data: Bytes): Result<DelegationRecord> {
    var body :- Body(RECORD_TAG, data);
    Exactly(TakeRecord(body))
  }

  lemma RecordRoundTrip(r: DelegationRecord)
    ensures DecodeRecord(EncodeRecord(r)) == Ok(r)
  {
    hide TakeKey, TakeU64, KeyBytes, LeBytes;
    BodyOfWritten(RECORD_TAG, RecordBody(r));
    var d5 := LeBytes(r.commitFrequencyMs, 8) + [];
    var d4 := LeBytes(r.lamports, 8) + d5;
    var d3 := LeBytes(r.delegationSlot, 8) + d4;
    TakeU64Written(r.commitFrequencyMs, []);
    TakeU64Written(r.lamports, d5);
    TakeU64Written(r.delegationSlot, d4);
    TakeKeyWritten(r.owner, d3);
    TakeKeyWritten(r.authority, KeyBytes(r.owner) + d3);
  }

  /** Overwrites the lamports field through the mutable view of a record. */
  function PatchRecordLamports(data: Bytes, lamports: u64): (d: Bytes)
    requires |data| == RECORD_SIZE
    ensures |d| == |data|
  {
    data[..RECORD_LAMPORTS_AT] + LeBytes(lamports, 8) + data[RECORD_LAMPORTS_AT + 8..]
  }

  lemma PatchedRecord(r: DelegationRecord, lamports: u64)
    ensures PatchRecordLamports(EncodeRecord(r), lamports) == EncodeRecord(r.(lamports := lamports))
  {
    hide KeyBytes, LeBytes;
    var front := Discriminator(RECORD_TAG) + KeyBytes(r.authority) + KeyBytes(r.owner) + LeBytes(r.delegationSlot, 8);
    var back := LeBytes(r.commitFrequencyMs, 8);
    assert EncodeRecord(r) == front + LeBytes(r.lamports, 8) + back;
    assert EncodeRecord(r.(lamports := lamports)) == front + LeBytes(lamports, 8) + back;
    assert EncodeRecord(r)[..RECORD_LAMPORTS_AT] == front;
    assert EncodeRecord(r)[RECORD_LAMPORTS_AT + 8..] == back;
  }

  // ---- Commit record ----

  function CommitRecordBody(r: CommitRecordData): Bytes {
    KeyBytes(r.identity) + (KeyBytes(r.account) + (LeBytes(r.slot, 8) + (LeBytes(r.lamports, 8) + [])))
  }

  function EncodeCommitRecord(r: CommitRecordData): (d: Bytes)
    ensures |d| == COMMIT_RECORD_SIZE
  {
    Discriminator(COMMIT_RECORD_TAG) + CommitRecordBody(r)
  }

  function TakeCommitRecord(d: Bytes): Parsed<CommitRecordData> {
    var (identity, d1) :- TakeKey(d);
    var (account, d2) :- TakeKey(d1);
    var (slot, d3) :- TakeU64(d2);
    var (lamports, d4) :- TakeU64(d3);
    Parsed(CommitRecordData(identity, account, slot, lamports), d4)
  }

  function DecodeCommitRecord(data: Bytes): Result<CommitRecordData> {
    var body :- Body(COMMIT_RECORD_TAG, data);
    Exactly(TakeCommitRecord(body))
  }

  lemma CommitRecordRoundTrip(r: CommitRecordData)
    ensures DecodeCommitRecord(EncodeCommitRecord(r)) == Ok(r)
  {
    hide TakeKey, TakeU64, KeyBytes, LeBytes;
    BodyOfWritten(COMMIT_RECORD_TAG, CommitRecordBody(r));
    var d4 := LeBytes(r.lamports, 8) + [];
    var d3 := LeBytes(r.slot, 8) + d4;
    TakeU64Written(r.lamports, []);
    TakeU64Written(r.slot, d4);
    TakeKeyWritten(r.account, d3);
    TakeKeyWritten(r.identity, KeyBytes(r.account) + d3);
  }

  // ---- Delegation metadata ----

  /** Borsh writes lengths in four bytes and fails on longer vectors. */
  predicate Encodable(seeds: seq<Bytes>) {
    |seeds| < 0x1_0000_0000 && forall b :: b in seeds ==> |b| < 0x1_0000_0000
  }

  function MetadataBody(m: DelegationMetadata): Bytes {
    LeBytes(m.lastUpdateExternalSlot, 8) + (BoolBytes(m.isUndelegatable) +
    (LeBytes(|m.seeds|, 4) + (BlobsBytes(m.seeds) + (KeyBytes(m.rentPayer) + []))))
  }

  function EncodeMetadata(m: DelegationMetadata): Bytes {
    Discriminator(METADATA_TAG) + MetadataBody(m)
  }

  function TakeMetadata(d: Bytes): Parsed<DelegationMetadata> {
    var (slot, d1) :- TakeU64(d);
    var (flag, d2) :- TakeBool(d1);
    var (count, d3) :- TakeU32(d2);
    var (seeds, d4) :- TakeBlobs(count, d3);
    var (rentPayer, d5) :- TakeKey(d4);
    Parsed(DelegationMetadata(slot, flag, seeds, rentPayer), d5)
  }

  function DecodeMetadata(data: Bytes): Result<DelegationMetadata> {
    var body :- Body(METADATA_TAG, data);
    Exactly(TakeMetadata(body))
  }

  lemma MetadataRoundTrip(m: DelegationMetadata)
    requires Encodable(m.seeds)
    ensures DecodeMetadata(EncodeMetadata(m)) == Ok(m)
  {
    hide TakeKey, TakeU64, TakeU32, TakeBool, TakeBlobs, KeyBytes, LeBytes, BoolBytes, BlobsBytes;
    BodyOfWritten(METADATA_TAG, MetadataBody(m));
    var d5 := KeyBytes(m.rentPayer) + [];
    var d4 := BlobsBytes(m.seeds) + d5;
    var d3 := LeBytes(|m.seeds|, 4) + d4;
    var d2 := BoolBytes(m.isUndelegatable) + d3;
    TakeKeyWritten(m.rentPayer, []);
    TakeBlobsWritten(m.seeds, d5);
    TakeU32Written(|m.seeds|, d4);
    TakeBoolWritten(m.isUndelegatable, d3);
    TakeU64Written(m.lastUpdateExternalSlot, d2);
  }

  // ---- Writing into the bytes of an account ----

  /** Writing from the front of a buffer replaces what it reaches, leaves the rest, and fails if it does not fit. */
  function Overwrite(data: Bytes, bytes: Bytes): Result<Bytes> {
    if |bytes| <= |data| then Ok(bytes + data[|bytes|..]) else Err(WriteZero)
  }

  /** Commit and finalize rewrite metadata in place: the slot and the flag may change, and whatever they become
      the bytes fit the account exactly and parse back to the updated value, seeds and rent payer included. */
  lemma MetadataRewrite(m: DelegationMetadata, slot: u64, flag: bool)
    requires Encodable(m.seeds)
    ensures var m' := m.(lastUpdateExternalSlot := slot, isUndelegatable := flag);
            && Overwrite(EncodeMetadata(m), EncodeMetadata(m')) == Ok(EncodeMetadata(m'))
            && DecodeMetadata(EncodeMetadata(m')) == Ok(m')
            && m'.seeds == m.seeds && m'.rentPayer == m.rentPayer
  {
    var m' := m.(lastUpdateExternalSlot := slot, isUndelegatable := flag);
    MetadataRoundTrip(m');
    hide BlobsBytes, LeBytes, KeyBytes;
    assert |EncodeMetadata(m')| == |EncodeMetadata(m)|;
    assert EncodeMetadata(m') + EncodeMetadata(m)[|EncodeMetadata(m')|..] == EncodeMetadata(m');
  }

  // ---- Program config ----

  /** The keys of a set in the order the set is written: ascending by address, each once. */
  ghost predicate Listing(keys: seq<Key>, members: set<Key>) {
    |keys| == |members| && (set k | k in keys) == members
  }

  function ConfigSize(validators: set<Key>): nat {
    8 + 4 + 32 * |validators|
  }

  function EncodeConfig(listed: seq<Key>): Bytes {
    Discriminator(CONFIG_TAG) + (LeBytes(|listed|, 4) + (KeysBytes(listed) + []))
  }

  function TakeConfig(d: Bytes): Parsed<seq<Key>> {
    var (count, d1) :- TakeU32(d);
    TakeKeys(count, d1)
  }

  /** Reading a set inserts the listed keys one by one, so order and repetition are lost. */
  function DecodeConfig(data: Bytes): Result<set<Key>> {
    var body :- Body(CONFIG_TAG, data);
    var listed :- Exactly(TakeConfig(body));
    Ok(set k | k in listed)
  }

  lemma ConfigRoundTrip(listed: seq<Key>, validators: set<Key>)
    requires Listing(listed, validators) && |validators| < 0x1_0000_0000
    ensures DecodeConfig(EncodeConfig(listed)) == Ok(validators)
    ensures |EncodeConfig(listed)| == ConfigSize(validators)
  {
    hide TakeU32, TakeKeys, LeBytes, KeysBytes;
    var d1 := KeysBytes(listed) + [];
    BodyOfWritten(CONFIG_TAG, LeBytes(|listed|, 4) + d1);
    TakeU32Written(|listed|, d1);
    TakeKeysWritten(listed, []);
  }
}
