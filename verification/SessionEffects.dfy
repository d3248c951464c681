/** What delegate, commit and finalize do to the session they name: each is one abstract step or none. */
module SessionEffects {
  import opened Outcomes
  import opened Octets
  import opened Layouts
  import opened Store
  import opened Handlers
  import opened Sessions
  import opened Invariants

  // ---- Delegate ----

  lemma StagingIsDerived(d: Key, program: Key)
    ensures DelegateBuffer(d, program).Derived?
  {}

  /** The store once record and metadata exist, before the staged bytes are copied. */
  lemma DelegateAccounts(c: Chain, s: Store, signers: set<Key>,
                         payer: Key, d: Key, ownerProgram: Key, args: DelegateArgs, t: Store) returns (u: Store)
    requires HandleDelegate(c, s, signers, payer, d, ownerProgram, args) == Ok(t)
    requires !ProgramAddress(payer) && Delegatable(d)
    ensures var staged := At(u, DelegateBuffer(d, ownerProgram)).data;
            t == if staged == [] then u else SetData(u, d, staged)
    ensures Total(u) == Total(s) && Frame(s, u, SessionKeys(d))
    ensures Fresh(s, Record(d)) && Encodable(args.seeds)
    ensures At(u, d) == At(s, d) && Owned(s, d)
    ensures Owned(u, Record(d)) && Owned(u, Metadata(d))
    ensures At(u, Record(d)).data == EncodeRecord(NewRecord(s, d, ownerProgram, args))
    ensures At(u, Metadata(d)).data == EncodeMetadata(NewMetadata(payer, args))
    ensures forall k {:trigger At(u, k)} :: k != Record(d) && k != Metadata(d) && k != payer ==> At(u, k) == At(s, k)
    ensures At(u, payer).data == At(s, payer).data && At(u, payer).owner == At(s, payer).owner
    ensures Lamports(u, Record(d)) == AtLeast(Lamports(s, Record(d)), c.rent(96))
    ensures Lamports(u, Metadata(d)) == AtLeast(Lamports(s, Metadata(d)), c.rent(|At(u, Metadata(d)).data|))
    ensures Lamports(s, payer) - Lamports(u, payer)
            == (Lamports(u, Record(d)) - Lamports(s, Record(d))) + (Lamports(u, Metadata(d)) - Lamports(s, Metadata(d)))
  {
    hide ProgramAddress, Delegatable, Total, Zeroes, Frame, CreatePda, EncodeRecord, EncodeMetadata, Encodable,
         SeedsMatch, DelegateBuffer, Shortfall, NewMetadata, SessionKeys, Layouts.Discriminator;
    SessionAddresses(d, payer);
    var s1 := CreatePda(c.rent, s, Record(d), Dlp, RECORD_SIZE, payer).value;
    OwnedNeverPays(c.rent, s, Record(d), Dlp, RECORD_SIZE, payer, s1, d);
    var record := EncodeRecord(NewRecord(s1, d, ownerProgram, args));
    CreatedAndWritten(c.rent, s, Record(d), Dlp, RECORD_SIZE, payer, s1, record);
    var s2 := SetData(s1, Record(d), record);
    var bytes := EncodeMetadata(NewMetadata(payer, args));
    var s3 := CreatePda(c.rent, s2, Metadata(d), Dlp, |bytes|, payer).value;
    OwnedNeverPays(c.rent, s2, Metadata(d), Dlp, |bytes|, payer, s3, d);
    CreatedAndWritten(c.rent, s2, Metadata(d), Dlp, |bytes|, payer, s3, bytes);
    u := SetData(s3, Metadata(d), bytes);
    ShortfallFills(Lamports(s, Record(d)), c.rent(96));
    ShortfallFills(Lamports(s2, Metadata(d)), c.rent(|bytes|));
    FrameOne(s, s2, Record(d), d);
    FrameOne(s2, u, Metadata(d), d);
    FrameThen(s, s2, u, SessionKeys(d));
    forall k | k != Record(d) && k != Metadata(d) && k != payer ensures At(u, k) == At(s, k) {
      assert At(s2, k) == At(s, k);
    }
  }

  /** A successful delegation opens a session: the recorded balance is what the account holds, the data is what the
      owner program staged, if anything, and creating the two accounts cost the delegated account nothing. */
  lemma DelegateEffect(c: Chain, s: Store, signers: set<Key>,
                       payer: Key, d: Key, ownerProgram: Key, args: DelegateArgs, t: Store)
    requires HandleDelegate(c, s, signers, payer, d, ownerProgram, args) == Ok(t)
    requires SessionOk(s, d) && !ProgramAddress(payer) && Delegatable(d)
    ensures Total(t) == Total(s) && Frame(s, t, SessionKeys(d))
    ensures Abs(s, d) == Idle && SessionOk(t, d)
    ensures Lamports(t, d) == Lamports(s, d)
    ensures Abs(t, d) == Live(ownerProgram, payer, args.seeds, 0, false, Lamports(s, d), 0, At(t, d).data, None)
    ensures var staged := At(s, DelegateBuffer(d, ownerProgram)).data;
            At(t, d).data == if staged == [] then At(s, d).data else staged
  {
    hide ProgramAddress, Delegatable, DelegateBuffer, HandleDelegate, Total, Frame, DecodeRecord, EncodeRecord,
         DecodeMetadata, EncodeMetadata, Encodable, SessionOk, Abs, SessionKeys;
    var u := DelegateAccounts(c, s, signers, payer, d, ownerProgram, args, t);
    assert DelegateBuffer(d, ownerProgram).Derived? by { StagingIsDerived(d, ownerProgram); }
    SessionAddresses(d, payer);
    if t != u {
      RewriteEffect(u, d, At(t, d));
      FrameOne(u, t, d, d);
      FrameThen(s, u, t, SessionKeys(d));
    }
    assert At(u, CommitState(d)) == At(s, CommitState(d)) && At(u, CommitRecord(d)) == At(s, CommitRecord(d));
    assert At(u, UndelegateBuffer(d)) == At(s, UndelegateBuffer(d));
    SessionOpened(s, t, d, NewRecord(s, d, ownerProgram, args), NewMetadata(payer, args));
  }

  /** The record says whose authority, whose account, since when, with which balance and how often to commit; both
      accounts reach their rent minimum, and the payer is short of exactly what they lacked. */
  lemma DelegateRecords(c: Chain, s: Store, signers: set<Key>,
                        payer: Key, d: Key, ownerProgram: Key, args: DelegateArgs, t: Store)
    requires HandleDelegate(c, s, signers, payer, d, ownerProgram, args) == Ok(t)
    requires !ProgramAddress(payer) && Delegatable(d)
    ensures DecodeRecord(At(t, Record(d)).data)
            == Ok(DelegationRecord(if args.validator.Some? then args.validator.value else System, ownerProgram,
                                   args.clockSlot, Lamports(s, d), args.commitFrequencyMs))
    ensures Lamports(t, Record(d)) == AtLeast(Lamports(s, Record(d)), c.rent(96))
    ensures Lamports(t, Metadata(d)) == AtLeast(Lamports(s, Metadata(d)), c.rent(|At(t, Metadata(d)).data|))
    ensures payer != d ==>
              Lamports(s, payer) - Lamports(t, payer)
              == (Lamports(t, Record(d)) - Lamports(s, Record(d)))
                  + (Lamports(t, Metadata(d)) - Lamports(s, Metadata(d)))
  {
    hide ProgramAddress, Delegatable, DelegateBuffer, HandleDelegate, Total, Frame, DecodeRecord, EncodeRecord,
         EncodeMetadata, Encodable, SessionKeys;
    var u := DelegateAccounts(c, s, signers, payer, d, ownerProgram, args, t);
    SessionAddresses(d, payer);
    RecordRoundTrip(NewRecord(s, d, ownerProgram, args));
    assert payer != d ==> At(t, payer) == At(u, payer);
  }

  lemma SessionOpened(s: Store, t: Store, d: Key, r: DelegationRecord, m: DelegationMetadata)
    requires SessionOk(s, d) && Fresh(s, Record(d))
    requires Delegatable(d) && Owned(t, d) && Lamports(t, d) == r.lamports && Encodable(m.seeds)
            && !ProgramAddress(m.rentPayer)
    requires At(t, Record(d)).owner == Dlp && At(t, Record(d)).data == EncodeRecord(r)
    requires At(t, Metadata(d)).owner == Dlp && At(t, Metadata(d)).data == EncodeMetadata(m)
    requires At(t, CommitState(d)) == At(s, CommitState(d)) && At(t, CommitRecord(d)) == At(s, CommitRecord(d))
    requires At(t, UndelegateBuffer(d)) == At(s, UndelegateBuffer(d))
    ensures Abs(s, d) == Idle && SessionOk(t, d)
    ensures Abs(t, d) == Live(r.owner, m.rentPayer, m.seeds, m.lastUpdateExternalSlot, m.isUndelegatable,
                              r.lamports, 0, At(t, d).data, None)
  {
    hide DecodeRecord, EncodeRecord, DecodeMetadata, EncodeMetadata, Encodable, PendingOk, CommitOk;
    RecordRoundTrip(r);
    MetadataRoundTrip(m);
  }

  // ---- Commit ----

  /** A commit is skipped when its slot is below the last finalized one. */
  predicate Stale(s: Store, d: Key, slot: u64) {
    DecodeMetadata(At(s, Metadata(d)).data).Ok?
        && slot < DecodeMetadata(At(s, Metadata(d)).data).value.lastUpdateExternalSlot
  }

  /** Collateral comes from the validator, never from a program account, and covers the difference. */
  lemma CollateralPosted(s: Store, v: Key, d: Key, recorded: u64, committed: u64, t: Store)
    requires PostCollateral(s, v, d, recorded, committed) == Ok(t)
    requires !ProgramAddress(v) && Owned(s, d) && Delegatable(d)
    ensures Total(t) == Total(s) && Frame(s, t, {})
    ensures committed <= Lamports(t, CommitState(d)) + recorded
    ensures At(t, d) == At(s, d)
    ensures Fresh(t, CommitState(d)) <==> Fresh(s, CommitState(d))
    ensures forall k {:trigger At(t, k)} :: ProgramAddress(k) && k != CommitState(d) ==> At(t, k) == At(s, k)
  {
    hide ProgramAddress, Delegatable, Total, Frame;
    SessionAddresses(d, v);
    FrameSame(s, {});
    if committed > recorded {
      TransferEffect(s, v, CommitState(d), committed - recorded, t);
    }
  }

  /** An unskipped commit up to the point where it creates accounts: flag rewritten, collateral posted. */
  lemma CommitPrepared(c: Chain, s: Store, signers: set<Key>, v: Key, d: Key, args: CommitArgs, t: Store)
    returns (u: Store)
    requires HandleCommit(c, s, signers, v, d, args) == Ok(t)
    requires SessionOk(s, d) && !ProgramAddress(v) && !Stale(s, d, args.slot)
    ensures LiveOk(s, d) && !Fresh(s, Record(d))
    ensures !MetadataOf(s, d).isUndelegatable && MetadataOf(s, d).lastUpdateExternalSlot <= args.slot
    ensures Admitted(s, RecordOf(s, d).owner, v).Pass?
    ensures var flagged := EncodeMetadata(MetadataOf(s, d).(isUndelegatable := args.allowUndelegation));
            PostCollateral(SetData(s, Metadata(d), flagged), v, d, RecordOf(s, d).lamports, args.lamports) == Ok(u)
    ensures StoreCommit(c, u, v, d, args) == Ok(t)
    ensures Total(u) == Total(s) && Frame(s, u, SessionKeys(d))
    ensures At(u, d) == At(s, d) && Owned(u, Metadata(d))
    ensures Fresh(u, CommitState(d)) <==> Fresh(s, CommitState(d))
    ensures forall k {:trigger At(u, k)} :: ProgramAddress(k) && k != CommitState(d) && k != Metadata(d) ==>
            At(u, k) == At(s, k)
    ensures At(u, Metadata(d)) ==
            At(s, Metadata(d)).(data := EncodeMetadata(MetadataOf(s, d).(isUndelegatable := args.allowUndelegation)))
    ensures args.lamports <= Lamports(u, CommitState(d)) + RecordOf(s, d).lamports
  {
    hide ProgramAddress, Delegatable, Total, Frame, DecodeRecord, EncodeRecord, DecodeMetadata, EncodeMetadata,
         StoreCommit, PendingOk, PostCollateral, SessionKeys;
    if Delegatable(d) { SessionAddresses(d, v); }
    var meta := MetadataOf(s, d);
    MetadataRewrite(meta, meta.lastUpdateExternalSlot, args.allowUndelegation);
    var s1 := SetData(s, Metadata(d), EncodeMetadata(meta.(isUndelegatable := args.allowUndelegation)));
    RewriteEffect(s, Metadata(d), At(s1, Metadata(d)));
    var recorded := RecordOf(s, d).lamports;
    u := PostCollateral(s1, v, d, recorded, args.lamports).value;
    CollateralPosted(s1, v, d, recorded, args.lamports, u);
    FrameOne(s, s1, Metadata(d), d);
    FrameNone(s1, u, d);
    FrameThen(s, s1, u, SessionKeys(d));
    assert At(u, Config(RecordOf(s, d).owner)) == At(s, Config(RecordOf(s, d).owner));
  }

  lemma StoreCommitStages(c: Chain, u: Store, v: Key, d: Key, args: CommitArgs, t: Store)
    returns (s1: Store, s2: Store, s3: Store)
    requires StoreCommit(c, u, v, d, args) == Ok(t)
    ensures Fresh(u, CommitState(d)) && Fresh(u, CommitRecord(d))
    ensures CreatePda(c.rent, u, CommitState(d), Dlp, |args.state|, v) == Ok(s1)
    ensures CreatePda(c.rent, s1, CommitRecord(d), Dlp, COMMIT_RECORD_SIZE, v) == Ok(s2)
    ensures s3 == SetData(s2, CommitRecord(d), EncodeCommitRecord(CommitRecordData(v, d, args.slot, args.lamports)))
    ensures t == SetData(s3, CommitState(d), args.state)
  {
    hide CreatePda, EncodeCommitRecord;
    s1 := CreatePda(c.rent, u, CommitState(d), Dlp, |args.state|, v).value;
    s2 := CreatePda(c.rent, s1, CommitRecord(d), Dlp, COMMIT_RECORD_SIZE, v).value;
    s3 := SetData(s2, CommitRecord(d), EncodeCommitRecord(CommitRecordData(v, d, args.slot, args.lamports)));
  }

  lemma CommitStored(c: Chain, u: Store, v: Key, d: Key, args: CommitArgs, t: Store)
    requires StoreCommit(c, u, v, d, args) == Ok(t)
    requires !ProgramAddress(v) && Owned(u, d) && Delegatable(d)
    ensures Total(t) == Total(u) && Frame(u, t, SessionKeys(d))
    ensures Fresh(u, CommitState(d)) && Fresh(u, CommitRecord(d))
    ensures Owned(t, CommitState(d)) && Owned(t, CommitRecord(d))
    ensures At(t, CommitState(d)).data == args.state
    ensures At(t, CommitRecord(d)).data == EncodeCommitRecord(CommitRecordData(v, d, args.slot, args.lamports))
    ensures Lamports(u, CommitState(d)) <= Lamports(t, CommitState(d))
    ensures At(t, d) == At(u, d)
    ensures forall k {:trigger At(t, k)} :: ProgramAddress(k) && k != CommitState(d) && k != CommitRecord(d) ==>
            At(t, k) == At(u, k)
  {
    hide ProgramAddress, Delegatable, Total, Zeroes, Frame, StoreCommit, CreatePda, EncodeCommitRecord, Shortfall,
         SessionKeys, Kept, Protected;
    SessionAddresses(d, v);
    var s1, s2, s3 := StoreCommitStages(c, u, v, d, args, t);
    CreatePdaEffect(c.rent, u, CommitState(d), Dlp, |args.state|, v, s1);
    OwnedNeverPays(c.rent, u, CommitState(d), Dlp, |args.state|, v, s1, d);
    CreatedAndWritten(c.rent, s1, CommitRecord(d), Dlp, COMMIT_RECORD_SIZE, v, s2, At(s3, CommitRecord(d)).data);
    OwnedNeverPays(c.rent, s1, CommitRecord(d), Dlp, COMMIT_RECORD_SIZE, v, s2, d);
    RewriteEffect(s3, CommitState(d), At(t, CommitState(d)));
    FrameOne(u, s1, CommitState(d), d);
    FrameOne(s1, s3, CommitRecord(d), d);
    FrameOne(s3, t, CommitState(d), d);
    FrameThen(u, s1, s3, SessionKeys(d));
    FrameThen(u, s3, t, SessionKeys(d));
    forall k | ProgramAddress(k) && k != CommitState(d) && k != CommitRecord(d) ensures At(t, k) == At(u, k) {
      assert At(t, k) == At(s3, k) == At(s1, k) == At(u, k);
    }
  }

  /** A successful commit that is not skipped is one abstract step: the session was live, nothing was pending and
      undelegation was not yet allowed. It costs the delegated account nothing. */
  lemma CommitEffect(c: Chain, s: Store, signers: set<Key>, v: Key, d: Key, args: CommitArgs, t: Store)
    requires HandleCommit(c, s, signers, v, d, args) == Ok(t)
    requires SessionOk(s, d) && !ProgramAddress(v) && !Stale(s, d, args.slot)
    ensures Total(t) == Total(s) && Frame(s, t, SessionKeys(d))
    ensures At(t, d) == At(s, d)
    ensures SessionOk(t, d) && Fresh(s, CommitState(d)) && !Fresh(t, CommitState(d))
    ensures Abs(s, d).Live? && Admitted(s, Abs(s, d).owner, v).Pass?
    ensures Some(Abs(t, d)) ==
            Step(Abs(s, d), Committed(v, args.slot, args.lamports, args.allowUndelegation, args.state))
  {
    hide ProgramAddress, Delegatable, HandleCommit, StoreCommit, Total, Frame, DecodeMetadata, EncodeMetadata,
         EncodeCommitRecord, SessionOk, PendingOk, RecordOk, MetadataOk, Admitted, Stale, Sessions.Step, SessionKeys;
    var u := CommitPrepared(c, s, signers, v, d, args, t);
    SessionAddresses(d, v);
    CommitStored(c, u, v, d, args, t);
    FrameThen(s, u, t, SessionKeys(d));
    CommitRecorded(s, t, v, d, args);
  }

  lemma CommitRecorded(s: Store, t: Store, v: Key, d: Key, args: CommitArgs)
    requires SessionOk(s, d) && LiveOk(s, d) && !Fresh(s, Record(d)) && Fresh(s, CommitState(d))
    requires At(t, d) == At(s, d) && At(t, Record(d)) == At(s, Record(d))
    requires At(t, UndelegateBuffer(d)) == At(s, UndelegateBuffer(d))
    requires !MetadataOf(s, d).isUndelegatable && MetadataOf(s, d).lastUpdateExternalSlot <= args.slot
    requires Owned(t, Metadata(d)) && Owned(t, CommitState(d)) && Owned(t, CommitRecord(d))
    requires At(t, Metadata(d)).data == EncodeMetadata(MetadataOf(s, d).(isUndelegatable := args.allowUndelegation))
    requires At(t, CommitState(d)).data == args.state
    requires At(t, CommitRecord(d)).data == EncodeCommitRecord(CommitRecordData(v, d, args.slot, args.lamports))
    requires args.lamports <= Lamports(t, CommitState(d)) + RecordOf(s, d).lamports
    ensures SessionOk(t, d) && !Fresh(t, CommitState(d)) && Abs(s, d).Live? && Abs(s, d).owner == RecordOf(s, d).owner
    ensures Some(Abs(t, d)) ==
            Step(Abs(s, d), Committed(v, args.slot, args.lamports, args.allowUndelegation, args.state))
  {
    hide DecodeRecord, EncodeRecord, DecodeMetadata, EncodeMetadata, DecodeCommitRecord, EncodeCommitRecord;
    MetadataRoundTrip(MetadataOf(s, d).(isUndelegatable := args.allowUndelegation));
    CommitRecordRoundTrip(CommitRecordData(v, d, args.slot, args.lamports));
  }

  lemma StaleCommitSkips(c: Chain, s: Store, signers: set<Key>, v: Key, d: Key, args: CommitArgs, t: Store)
    requires HandleCommit(c, s, signers, v, d, args) == Ok(t) && Stale(s, d, args.slot)
    ensures t == s
  {}

  // ---- Finalize ----

  lemma MoveEffect(s: Store, from: Key, to: Key, amount: u64, t: Store)
    requires from != to && amount <= Lamports(s, from)
    requires Credit(s[from := At(s, from).(lamports := Lamports(s, from) - amount)], to, amount) == Ok(t)
    ensures Total(t) == Total(s) && Frame(s, t, {from})
    ensures At(t, from) == At(s, from).(lamports := Lamports(s, from) - amount)
    ensures At(t, to) == At(s, to).(lamports := Lamports(s, to) + amount)
    ensures forall k {:trigger At(t, k)} :: k != from && k != to ==> At(t, k) == At(s, k)
  {
    hide Total;
    var s1 := s[from := At(s, from).(lamports := Lamports(s, from) - amount)];
    TotalUpdate(s, from, At(s1, from));
    TotalUpdate(s1, to, At(t, to));
  }

  /** Settling moves exactly the difference: down, from the account to the validator's vault; up, from the collateral
      to the account. What arrived since the last record stays where it is. */
  lemma SettleEffect(s: Store, d: Key, v: Key, recorded: u64, committed: u64, t: Store)
    requires Settle(s, d, v, recorded, committed) == Ok(t)
    requires Delegatable(d) && recorded <= Lamports(s, d) && committed <= Lamports(s, CommitState(d)) + recorded
    ensures Total(t) == Total(s) && Frame(s, t, SessionKeys(d))
    ensures Holds(At(t, d), At(s, d).owner, Lamports(s, d) - recorded + committed, At(s, d).data)
    ensures var cs := CommitState(d);
            Holds(At(t, cs), At(s, cs).owner, Lamports(s, cs) - Above(committed, recorded), At(s, cs).data)
    ensures var vault := ValidatorVault(v);
            Holds(At(t, vault), At(s, vault).owner, Lamports(s, vault) + Above(recorded, committed), At(s, vault).data)
    ensures forall k {:trigger At(t, k)} ::
            k != d && k != CommitState(d) && k != ValidatorVault(v) ==> At(t, k) == At(s, k)
  {
    hide ProgramAddress, Delegatable, Total, Credit, Frame, SessionKeys;
    SessionAddresses(d, v);
    FrameSame(s, SessionKeys(d));
    if recorded > committed {
      MoveEffect(s, d, ValidatorVault(v), recorded - committed, t);
      FrameOne(s, t, d, d);
    } else if recorded < committed {
      MoveEffect(s, CommitState(d), d, committed - recorded, t);
      FrameOne(s, t, CommitState(d), d);
    }
  }

  /** Under the invariant, settling cannot fail for want of lamports; only a total beyond 64 bits could stop it. */
  lemma SettleSucceeds(s: Store, d: Key, v: Key, recorded: u64, committed: u64)
    requires Delegatable(d) && recorded <= Lamports(s, d) && committed <= Lamports(s, CommitState(d)) + recorded
    requires Total(s) < U64_LIMIT
    ensures Settle(s, d, v, recorded, committed).Ok?
  {
    hide Total;
    TotalCoversTwo(s, d, ValidatorVault(v));
    TotalCoversTwo(s, d, CommitState(d));
  }

  lemma WriteFinalizedEffect(s: Store, d: Key, r: DelegationRecord, m: DelegationMetadata, slot: u64, t: Store)
    requires Delegatable(d) && Encodable(m.seeds)
    requires At(s, Record(d)).data == EncodeRecord(r) && At(s, Metadata(d)).data == EncodeMetadata(m)
    requires WriteFinalized(s, d, m.(lastUpdateExternalSlot := slot)) == Ok(t)
    ensures Total(t) == Total(s) && Frame(s, t, SessionKeys(d))
    ensures At(t, Metadata(d)) == At(s, Metadata(d)).(data := EncodeMetadata(m.(lastUpdateExternalSlot := slot)))
    ensures At(t, Record(d)) == At(s, Record(d)).(data := EncodeRecord(r.(lamports := Lamports(s, d))))
    ensures At(t, d) == At(s, d).(data := At(s, CommitState(d)).data)
    ensures forall k {:trigger At(t, k)} :: k != d && k != Record(d) && k != Metadata(d) ==> At(t, k) == At(s, k)
  {
    hide ProgramAddress, Delegatable, Total, Frame, EncodeMetadata, EncodeRecord, SessionKeys;
    SessionAddresses(d, d);
    MetadataRewrite(m, slot, m.isUndelegatable);
    PatchedRecord(r, Lamports(s, d));
    var s1 := SetData(s, Metadata(d), EncodeMetadata(m.(lastUpdateExternalSlot := slot)));
    var s2 := SetData(s1, Record(d), EncodeRecord(r.(lamports := Lamports(s, d))));
    RewriteEffect(s, Metadata(d), At(s1, Metadata(d)));
    RewriteEffect(s1, Record(d), At(s2, Record(d)));
    RewriteEffect(s2, d, At(t, d));
    FrameOne(s, s1, Metadata(d), d);
    FrameOne(s1, s2, Record(d), d);
    FrameOne(s2, t, d, d);
    FrameThen(s, s1, s2, SessionKeys(d));
    FrameThen(s, s2, t, SessionKeys(d));
  }

  lemma CloseTwo(s: Store, d: Key, v: Key, s1: Store, t: Store)
    requires !ProgramAddress(v) && Delegatable(d)
    requires ClosePda(s, CommitState(d), v) == Ok(s1) && ClosePda(s1, CommitRecord(d), v) == Ok(t)
    ensures Total(t) == Total(s) && Frame(s, t, SessionKeys(d))
    ensures At(t, CommitState(d)) == EMPTY && At(t, CommitRecord(d)) == EMPTY
    ensures var balance := Lamports(s, v) + Lamports(s, CommitState(d)) + Lamports(s, CommitRecord(d));
            Holds(At(t, v), At(s, v).owner, balance, At(s, v).data)
    ensures forall k {:trigger At(t, k)} :: k != CommitState(d) && k != CommitRecord(d) && k != v ==>
            At(t, k) == At(s, k)
  {
    hide ProgramAddress, Delegatable, Total, Frame, ClosePda, SessionKeys;
    SessionAddresses(d, v);
    ClosePdaEffect(s, CommitState(d), v, s1);
    ClosePdaEffect(s1, CommitRecord(d), v, t);
    FrameOne(s, s1, CommitState(d), d);
    FrameOne(s1, t, CommitRecord(d), d);
    FrameThen(s, s1, t, SessionKeys(d));
    forall k | k != CommitState(d) && k != CommitRecord(d) && k != v ensures At(t, k) == At(s, k) {
      assert At(s1, k) == At(s, k);
    }
  }

  lemma ApplyCommitStages(s: Store, v: Key, d: Key, r: DelegationRecord, m: DelegationMetadata, p: CommitRecordData,
                          t: Store)
    returns (s1: Store, s2: Store, s3: Store)
    requires ApplyCommit(s, v, d) == Ok(t)
    requires DecodeRecord(At(s, Record(d)).data) == Ok(r) && DecodeMetadata(At(s, Metadata(d)).data) == Ok(m)
    requires DecodeCommitRecord(At(s, CommitRecord(d)).data) == Ok(p)
    ensures Settle(s, d, v, r.lamports, p.lamports) == Ok(s1)
    ensures WriteFinalized(s1, d, m.(lastUpdateExternalSlot := p.slot)) == Ok(s2)
    ensures ClosePda(s2, CommitState(d), v) == Ok(s3) && ClosePda(s3, CommitRecord(d), v) == Ok(t)
    ensures p.identity == v
  {
    hide Settle, WriteFinalized, ClosePda, DecodeRecord, DecodeMetadata, DecodeCommitRecord;
    s1 := Settle(s, d, v, r.lamports, p.lamports).value;
    s2 := WriteFinalized(s1, d, m.(lastUpdateExternalSlot := p.slot)).value;
    s3 := ClosePda(s2, CommitState(d), v).value;
  }

  /** A pending commit p may be applied to a session with record r and metadata m, by the validator it names. */
  ghost predicate Applies(s: Store, v: Key, d: Key, r: DelegationRecord, m: DelegationMetadata, p: CommitRecordData,
                          t: Store) {
    && ApplyCommit(s, v, d) == Ok(t)
    && Delegatable(d) && Owned(s, d) && !ProgramAddress(v)
    && Owned(s, Record(d)) && At(s, Record(d)).data == EncodeRecord(r) && DecodeRecord(At(s, Record(d)).data) == Ok(r)
    && Owned(s, Metadata(d)) && At(s, Metadata(d)).data == EncodeMetadata(m)
    && DecodeMetadata(At(s, Metadata(d)).data) == Ok(m)
    && Encodable(m.seeds)
    && DecodeCommitRecord(At(s, CommitRecord(d)).data) == Ok(p)
    && r.lamports <= Lamports(s, d) && p.lamports <= Lamports(s, CommitState(d)) + r.lamports
  }

  lemma ApplyCommitFrame(s: Store, v: Key, d: Key, r: DelegationRecord, m: DelegationMetadata, p: CommitRecordData,
                         t: Store)
    requires Applies(s, v, d, r, m, p, t)
    ensures Total(t) == Total(s) && Frame(s, t, SessionKeys(d))
    ensures At(t, CommitState(d)) == EMPTY && At(t, CommitRecord(d)) == EMPTY
    ensures At(t, UndelegateBuffer(d)) == At(s, UndelegateBuffer(d))
    ensures p.identity == v
  {
    hide ProgramAddress, Delegatable, ApplyCommit, Total, Frame, Settle, WriteFinalized, ClosePda, DecodeRecord,
         DecodeMetadata, EncodeRecord, EncodeMetadata, SessionKeys, DecodeCommitRecord, Encodable, Above, Kept,
         Protected, Owned;
    var s1, s2, s3 := ApplyCommitStages(s, v, d, r, m, p, t);
    SessionAddresses(d, v);
    SettleEffect(s, d, v, r.lamports, p.lamports, s1);
    WriteFinalizedEffect(s1, d, r, m, p.slot, s2);
    CloseTwo(s2, d, v, s3, t);
    FrameThen(s, s1, s2, SessionKeys(d));
    FrameThen(s, s2, t, SessionKeys(d));
  }

  /** What the validator gets back: the rent of both commit accounts and the collateral that was not used. */
  function Refund(s: Store, d: Key, recorded: nat, committed: nat): int {
    Lamports(s, CommitState(d)) - Above(committed, recorded) + Lamports(s, CommitRecord(d))
  }

  /** The account holds the committed lamports and whatever had arrived on top of the recorded ones, and the record
      says so; data and slot are those of the commit. */
  lemma ApplyCommitSession(s: Store, v: Key, d: Key, r: DelegationRecord, m: DelegationMetadata, p: CommitRecordData,
                           t: Store)
    returns (settled: u64)
    requires Applies(s, v, d, r, m, p, t)
    ensures settled == Lamports(s, d) - r.lamports + p.lamports
    ensures Holds(At(t, Record(d)), Dlp, Lamports(s, Record(d)), EncodeRecord(r.(lamports := settled)))
    ensures Holds(At(t, Metadata(d)), Dlp, Lamports(s, Metadata(d)),
            EncodeMetadata(m.(lastUpdateExternalSlot := p.slot)))
    ensures At(t, d).owner == Dlp && At(t, d).data == At(s, CommitState(d)).data
    ensures Lamports(t, d) == if v == d then settled + Refund(s, d, r.lamports, p.lamports) else settled
    ensures Refund(s, d, r.lamports, p.lamports) >= 0
  {
    hide ProgramAddress, Delegatable, ApplyCommit, Total, Frame, Settle, WriteFinalized, ClosePda, DecodeRecord,
         DecodeMetadata, EncodeRecord, EncodeMetadata, SessionKeys;
    var s1, s2, s3 := ApplyCommitStages(s, v, d, r, m, p, t);
    SessionAddresses(d, v);
    SettleEffect(s, d, v, r.lamports, p.lamports, s1);
    settled := Lamports(s1, d);
    WriteFinalizedEffect(s1, d, r, m, p.slot, s2);
    assert At(s2, d).data == At(s, CommitState(d)).data;
    assert Lamports(s2, CommitState(d)) + Lamports(s2, CommitRecord(d)) == Refund(s, d, r.lamports, p.lamports);
    CloseTwo(s2, d, v, s3, t);
  }

  /** The validator gets its refund, and a lowered balance goes to its vault. */
  lemma ApplyCommitBalances(s: Store, v: Key, d: Key, r: DelegationRecord, m: DelegationMetadata, p: CommitRecordData,
                            t: Store)
    requires Applies(s, v, d, r, m, p, t)
    ensures v != d ==>
            Holds(At(t, v), At(s, v).owner, Lamports(s, v) + Refund(s, d, r.lamports, p.lamports), At(s, v).data)
    ensures var vault := ValidatorVault(v);
            var balance := Lamports(s, vault) + Above(r.lamports, p.lamports);
            Holds(At(t, vault), At(s, vault).owner, balance, At(s, vault).data)
  {
    hide ProgramAddress, Delegatable, ApplyCommit, Total, Frame, Settle, WriteFinalized, ClosePda, DecodeRecord,
         DecodeMetadata, EncodeRecord, EncodeMetadata, SessionKeys;
    var s1, s2, s3 := ApplyCommitStages(s, v, d, r, m, p, t);
    SessionAddresses(d, v);
    SettleEffect(s, d, v, r.lamports, p.lamports, s1);
    WriteFinalizedEffect(s1, d, r, m, p.slot, s2);
    assert Lamports(s2, CommitState(d)) + Lamports(s2, CommitRecord(d)) == Refund(s, d, r.lamports, p.lamports);
    assert v != d ==> At(s2, v) == At(s, v);
    CloseTwo(s2, d, v, s3, t);
  }

  /** And nothing else changes. */
  lemma ApplyCommitRest(s: Store, v: Key, d: Key, r: DelegationRecord, m: DelegationMetadata, p: CommitRecordData,
                        t: Store)
    requires Applies(s, v, d, r, m, p, t)
    ensures forall k {:trigger At(t, k)} ::
              k !in {d, Record(d), Metadata(d), CommitState(d), CommitRecord(d), v, ValidatorVault(v)} ==>
                At(t, k) == At(s, k)
  {
    hide ProgramAddress, Delegatable, ApplyCommit, Total, Frame, Settle, WriteFinalized, ClosePda, DecodeRecord,
         DecodeMetadata, EncodeRecord, EncodeMetadata, SessionKeys, DecodeCommitRecord, Encodable, Above;
    var s1, s2, s3 := ApplyCommitStages(s, v, d, r, m, p, t);
    SessionAddresses(d, v);
    SettleEffect(s, d, v, r.lamports, p.lamports, s1);
    WriteFinalizedEffect(s1, d, r, m, p.slot, s2);
    CloseTwo(s2, d, v, s3, t);
    forall k | k !in {d, Record(d), Metadata(d), CommitState(d), CommitRecord(d), v, ValidatorVault(v)}
      ensures At(t, k) == At(s, k)
    {
      assert At(t, k) == At(s2, k) == At(s1, k) == At(s, k);
    }
  }

  lemma FinalizeApplies(c: Chain, s: Store, signers: set<Key>, v: Key, d: Key, t: Store)
    returns (r: DelegationRecord, m: DelegationMetadata, p: CommitRecordData)
    requires HandleFinalize(c, s, signers, v, d) == Ok(t)
    requires SessionOk(s, d) && !ProgramAddress(v) && !Fresh(s, CommitState(d))
    ensures Applies(s, v, d, r, m, p, t)
    ensures LiveOk(s, d) && PendingOk(s, d) && !Fresh(s, Record(d))
    ensures r == RecordOf(s, d) && m == MetadataOf(s, d) && p == CommitOf(s, d)
  {
    hide ApplyCommit, DecodeRecord, DecodeMetadata, DecodeCommitRecord, EncodeRecord, EncodeMetadata, Encodable,
         ProgramAddress, Delegatable;
    r, m, p := RecordOf(s, d), MetadataOf(s, d), CommitOf(s, d);
  }

  /** A successful finalize of a pending commit is one abstract step. What the account holds beyond it is the refund
      of a validator that is the delegated account itself. */
  lemma FinalizeEffect(c: Chain, s: Store, signers: set<Key>, v: Key, d: Key, t: Store)
    requires HandleFinalize(c, s, signers, v, d) == Ok(t)
    requires SessionOk(s, d) && !ProgramAddress(v) && !Fresh(s, CommitState(d))
    ensures Total(t) == Total(s) && Frame(s, t, SessionKeys(d))
    ensures SessionOk(t, d) && Fresh(t, CommitState(d))
    ensures Abs(s, d).Live? && Step(Abs(s, d), Finalized).Some?
    ensures var y := Step(Abs(s, d), Finalized).value;
            var extra := Lamports(t, d) - y.recorded;
            extra >= 0 && (v != d ==> extra == 0) && Abs(t, d) == Grown(y, extra)
  {
    hide HandleFinalize, Total, Frame, SessionOk, Abs, SessionKeys, Applies, ProgramAddress, Delegatable, LiveOk,
         PendingOk, RecordOk, MetadataOk, RecordOf, MetadataOf, CommitOf, Refund, Grown, Step;
    var r, m, p := FinalizeApplies(c, s, signers, v, d, t);
    ApplyCommitFrame(s, v, d, r, m, p, t);
    var settled := ApplyCommitSession(s, v, d, r, m, p, t);
    SessionFinalized(s, t, d, settled);
  }

  lemma SessionFinalized(s: Store, t: Store, d: Key, settled: u64)
    requires SessionOk(s, d) && LiveOk(s, d) && PendingOk(s, d) && !Fresh(s, Record(d)) && !Fresh(s, CommitState(d))
    requires settled == Lamports(s, d) - RecordOf(s, d).lamports + CommitOf(s, d).lamports
    requires At(t, Record(d)).owner == Dlp
            && At(t, Record(d)).data == EncodeRecord(RecordOf(s, d).(lamports := settled))
    requires At(t, Metadata(d)).owner == Dlp
    requires At(t, Metadata(d)).data == EncodeMetadata(MetadataOf(s, d).(lastUpdateExternalSlot := CommitOf(s, d).slot))
    requires At(t, d).owner == Dlp && At(t, d).data == At(s, CommitState(d)).data && settled <= Lamports(t, d)
    requires At(t, CommitState(d)) == EMPTY && At(t, CommitRecord(d)) == EMPTY
    requires At(t, UndelegateBuffer(d)) == At(s, UndelegateBuffer(d))
    ensures SessionOk(t, d) && Fresh(t, CommitState(d))
    ensures Abs(s, d).Live? && Step(Abs(s, d), Finalized).Some?
    ensures var y := Step(Abs(s, d), Finalized).value;
            y.Live? && y.recorded == settled && Abs(t, d) == Grown(y, Lamports(t, d) - settled)
  {
    hide DecodeRecord, EncodeRecord, DecodeMetadata, EncodeMetadata, DecodeCommitRecord, ProgramAddress, Delegatable;
    RecordRoundTrip(RecordOf(s, d).(lamports := settled));
    MetadataRoundTrip(MetadataOf(s, d).(lastUpdateExternalSlot := CommitOf(s, d).slot));
  }
}
