/** What every reachable store satisfies, and the abstract session each account is in. */
module Invariants {
  import opened Outcomes
  import opened Octets
  import opened Layouts
  import opened Store
  import opened Handlers
  import opened Sessions

  /** Only accounts that can sign are ever delegated: plain addresses, and escrow accounts, for which the program
      signs itself. */
  predicate Delegatable(k: Key) {
    !ProgramAddress(k) || k.Escrow?
  }

  /** Whose account it is, by its address: it is on the curve, or derived from the given seeds, however these are split,
      by the owner program; the system program stands for this one. */
  predicate BelongsTo(k: Key, owner: Key, seeds: seq<Bytes>) {
    || (k.User? && k.onCurve)
    || (&& Derivation(k).Some?
        && Derivation(k).value.0 == (if owner == System then Dlp else owner)
        && Flat(Derivation(k).value.1) == Flat(seeds))
  }

  /** The derived accounts of a session and the vaults are the program's, and none of them is ever delegated. */
  lemma SessionAddresses(d: Key, v: Key)
    requires Delegatable(d)
    ensures ProgramAddress(Record(d)) && ProgramAddress(Metadata(d)) && ProgramAddress(CommitState(d))
    ensures ProgramAddress(CommitRecord(d)) && ProgramAddress(UndelegateBuffer(d))
    ensures ProgramAddress(ValidatorVault(v)) && ProgramAddress(FeesVault)
    ensures d != Record(d) && d != Metadata(d) && d != CommitState(d) && d != CommitRecord(d)
            && d != UndelegateBuffer(d)
    ensures d != ValidatorVault(v) && d != FeesVault
    ensures forall p {:trigger Config(p)} :: ProgramAddress(Config(p)) && d != Config(p)
  {}

  // ---- The accounts of a session agree with the records they encode ----

  ghost predicate RecordOk(s: Store, d: Key) {
    && Owned(s, Record(d))
    && DecodeRecord(At(s, Record(d)).data).Ok?
    && At(s, Record(d)).data == EncodeRecord(DecodeRecord(At(s, Record(d)).data).value)
  }

  ghost predicate MetadataOk(s: Store, d: Key) {
    && Owned(s, Metadata(d))
    && DecodeMetadata(At(s, Metadata(d)).data).Ok?
    && var m := DecodeMetadata(At(s, Metadata(d)).data).value;
       Encodable(m.seeds) && !ProgramAddress(m.rentPayer) && At(s, Metadata(d)).data == EncodeMetadata(m)
  }

  ghost predicate CommitOk(s: Store, d: Key) {
    && Owned(s, CommitState(d))
    && Owned(s, CommitRecord(d))
    && DecodeCommitRecord(At(s, CommitRecord(d)).data).Ok?
  }

  function RecordOf(s: Store, d: Key): DelegationRecord
    requires DecodeRecord(At(s, Record(d)).data).Ok?
  {
    DecodeRecord(At(s, Record(d)).data).value
  }

  function MetadataOf(s: Store, d: Key): DelegationMetadata
    requires DecodeMetadata(At(s, Metadata(d)).data).Ok?
  {
    DecodeMetadata(At(s, Metadata(d)).data).value
  }

  function CommitOf(s: Store, d: Key): CommitRecordData
    requires DecodeCommitRecord(At(s, CommitRecord(d)).data).Ok?
  {
    DecodeCommitRecord(At(s, CommitRecord(d)).data).value
  }

  /** A pending commit names its account, is not older than the last finalized one, and is covered: what the
      commit state account holds makes up for what is committed above the recorded balance. */
  ghost predicate PendingOk(s: Store, d: Key)
    requires RecordOk(s, d) && MetadataOk(s, d)
  {
    && CommitOk(s, d)
    && CommitOf(s, d).account == d
    && MetadataOf(s, d).lastUpdateExternalSlot <= CommitOf(s, d).slot
    && CommitOf(s, d).lamports <= Lamports(s, CommitState(d)) + RecordOf(s, d).lamports
  }

  ghost predicate LiveOk(s: Store, d: Key) {
    && Delegatable(d)
    && Owned(s, d)
    && RecordOk(s, d)
    && MetadataOk(s, d)
    && RecordOf(s, d).lamports <= Lamports(s, d)
    && (if Fresh(s, CommitState(d)) then Fresh(s, CommitRecord(d)) else PendingOk(s, d))
  }

  /** The five accounts of a session exist in pairs: record and metadata together; commit state and commit record
      together, and only while the first two do. The undelegate buffer only exists inside an instruction. */
  ghost predicate SessionOk(s: Store, d: Key) {
    && Fresh(s, UndelegateBuffer(d))
    && if Fresh(s, Record(d)) then Fresh(s, Metadata(d)) && Fresh(s, CommitState(d)) && Fresh(s, CommitRecord(d))
       else LiveOk(s, d)
  }

  /** An initialized vault always holds at least the rent minimum. */
  ghost predicate VaultOk(c: Chain, s: Store, vault: Key) {
    Fresh(s, vault) || (Owned(s, vault) && c.rent(8) <= Lamports(s, vault))
  }

  /** The bytes of a config are exactly those of the set they parse to, and the balance covers their rent. */
  ghost predicate ConfigOk(c: Chain, s: Store, program: Key) {
    || Fresh(s, Config(program))
    || (&& Owned(s, Config(program))
        && var data := At(s, Config(program)).data;
           && DecodeConfig(data).Ok?
           && data == EncodeConfig(c.listing(DecodeConfig(data).value))
           && |data| == ConfigSize(DecodeConfig(data).value)
           && c.rent(|data|) <= Lamports(s, Config(program)))
  }

  ghost predicate Inv(c: Chain, s: Store) {
    && (forall d {:trigger SessionOk(s, d)} :: SessionOk(s, d))
    && VaultOk(c, s, FeesVault)
    && (forall v {:trigger VaultOk(c, s, ValidatorVault(v))} :: VaultOk(c, s, ValidatorVault(v)))
    && (forall p {:trigger ConfigOk(c, s, p)} :: ConfigOk(c, s, p))
  }

  /** Before its first instruction no account of the program is initialized. */
  ghost predicate Genesis(s: Store) {
    forall k {:trigger Fresh(s, k)} :: ProgramAddress(k) ==> Fresh(s, k)
  }

  lemma GenesisInv(c: Chain, s: Store)
    requires Genesis(s)
    ensures Inv(c, s)
  {}

  /** The accounts a session lives in: the delegated account and the five derived from it. */
  function SessionKeys(d: Key): set<Key> {
    {d, Record(d), Metadata(d), CommitState(d), CommitRecord(d), UndelegateBuffer(d)}
  }

  lemma FrameOne(s: Store, t: Store, k: Key, d: Key)
    requires Frame(s, t, {k})
    requires k == d || k == Record(d) || k == Metadata(d) || k == CommitState(d) || k == CommitRecord(d)
            || k == UndelegateBuffer(d)
    ensures Frame(s, t, SessionKeys(d))
  {}

  lemma FrameNone(s: Store, t: Store, d: Key)
    requires Frame(s, t, {})
    ensures Frame(s, t, SessionKeys(d))
  {}

  // ---- The abstract session ----

  function Abs(s: Store, d: Key): Session
    requires SessionOk(s, d)
  {
    if Fresh(s, Record(d)) then Idle
    else
      var r, m := RecordOf(s, d), MetadataOf(s, d);
      Live(r.owner, m.rentPayer, m.seeds, m.lastUpdateExternalSlot, m.isUndelegatable,
           r.lamports, Lamports(s, d) - r.lamports, At(s, d).data,
           if Fresh(s, CommitState(d)) then None
           else var p := CommitOf(s, d); Some(Pending(p.identity, p.slot, p.lamports, At(s, CommitState(d)).data)))
  }

  /** The session after `amount` more lamports arrived, if there is one. */
  function Grown(x: Session, amount: nat): Session {
    if x.Live? then x.(surplus := x.surplus + amount) else x
  }

  /** Steps that leave the accounts of a session alone can only add to its surplus. */
  lemma SessionFramed(s: Store, t: Store, d: Key, except: set<Key>)
    requires Frame(s, t, except) && SessionOk(s, d)
    requires {Record(d), Metadata(d), CommitState(d), CommitRecord(d), UndelegateBuffer(d)} !! except
    requires d !in except || Fresh(s, Record(d))
    ensures SessionOk(t, d)
    ensures Abs(s, d).Live? ==> Lamports(s, d) <= Lamports(t, d)
    ensures Abs(t, d) == Grown(Abs(s, d), if Abs(s, d).Live? then Lamports(t, d) - Lamports(s, d) else 0)
  {
    hide DecodeRecord, DecodeMetadata, DecodeCommitRecord, EncodeRecord, EncodeMetadata;
    assert Kept(At(s, Record(d)), At(t, Record(d)));
    assert Kept(At(s, Metadata(d)), At(t, Metadata(d)));
    assert Kept(At(s, CommitState(d)), At(t, CommitState(d)));
    assert Kept(At(s, CommitRecord(d)), At(t, CommitRecord(d)));
    assert Kept(At(s, UndelegateBuffer(d)), At(t, UndelegateBuffer(d)));
    if !Fresh(s, Record(d)) {
      assert Kept(At(s, d), At(t, d));
    }
  }

  lemma VaultFramed(c: Chain, s: Store, t: Store, vault: Key, except: set<Key>)
    requires Frame(s, t, except) && VaultOk(c, s, vault) && ProgramAddress(vault) && vault !in except
    ensures VaultOk(c, t, vault)
  {
    assert Kept(At(s, vault), At(t, vault));
  }

  lemma ConfigFramed(c: Chain, s: Store, t: Store, program: Key, except: set<Key>)
    requires Frame(s, t, except) && ConfigOk(c, s, program) && Config(program) !in except
    ensures ConfigOk(c, t, program)
  {
    hide DecodeConfig, EncodeConfig;
    assert Kept(At(s, Config(program)), At(t, Config(program)));
  }
}
