/** What the instructions about a session promise, as they are submitted: exactly when each succeeds, and what every
    account is afterwards. */
module SessionContracts {
  import opened Outcomes
  import opened Octets
  import opened Layouts
  import opened Formats
  import opened Store
  import opened Handlers
  import opened Sessions
  import opened Invariants
  import opened SessionEffects
  import opened UndelegateEffects
  import opened ConfigEffects
  import opened Runs
  import opened Guarantees
  import opened Contracts
  import opened Progress

  // ---- Delegate ----

  /** Where an owner program stages the bytes of an account. */
  function Staging(d: Key, program: Key): Key {
    Derived(program, [Ascii("buffer"), KeyBytes(d)])
  }

  /** What record and metadata of an account lack of their rent: 96 bytes, and 53 bytes and the seeds. */
  function OpeningCost(c: Chain, s: Store, d: Key, seeds: seq<Bytes>): nat {
    Lacks(Lamports(s, Record(d)), c.rent(96)) + Lacks(Lamports(s, Metadata(d)), c.rent(53 + SeedsSize(seeds)))
  }

  /** The record and the metadata of a delegation that has just begun, and the bytes the owner program staged. */
  ghost predicate Begun(c: Chain, s: Store, t: Store, payer: Key, d: Key, program: Key, args: DelegateArgs) {
    var staged := At(s, Staging(d, program)).data;
    && At(t, Record(d)).owner == Dlp
    && DecodeRecord(At(t, Record(d)).data)
       == Ok(DelegationRecord(if args.validator.Some? then args.validator.value else System, program, args.clockSlot,
                              Lamports(s, d), args.commitFrequencyMs))
    && Lamports(t, Record(d)) == Lamports(s, Record(d)) + Lacks(Lamports(s, Record(d)), c.rent(96))
    && At(t, Metadata(d)).owner == Dlp
    && DecodeMetadata(At(t, Metadata(d)).data) == Ok(DelegationMetadata(0, false, args.seeds, payer))
    && Lamports(t, Metadata(d))
       == Lamports(s, Metadata(d)) + Lacks(Lamports(s, Metadata(d)), c.rent(53 + SeedsSize(args.seeds)))
    && Holds(At(t, d), Dlp, Lamports(s, d), if staged == [] then At(s, d).data else staged)
    && (payer != d ==> Lost(s, t, payer, OpeningCost(c, s, d, args.seeds)))
    && Rest(s, t, {Record(d), Metadata(d), d, payer})
  }

  /** Metadata has the size its layout gives it. */
  lemma MetadataSize(m: DelegationMetadata)
    ensures |EncodeMetadata(m)| == 53 + SeedsSize(m.seeds)
  {
    hide LeBytes;
    BlobsSize(m.seeds);
  }

  /** A delegation, by the account and its payer. */
  lemma DelegateContract(c: Chain, s: Store, signers: set<Key>, payer: Key, d: Key, program: Key, args: DelegateArgs)
    requires !ProgramAddress(payer) && Delegatable(d) && Total(s) < U64_LIMIT
    ensures var r, staged := Handle(c, s, signers, Delegate(payer, d, program, args)), At(s, Staging(d, program)).data;
            && (r.Ok? <==>
                  && payer in signers && d in signers && OfProgram(s, d)
                  && Unused(s, Record(d)) && Unused(s, Metadata(d)) && BelongsTo(d, program, args.seeds)
                  && |args.seeds| < 0x1_0000_0000 && (forall b :: b in args.seeds ==> |b| < 0x1_0000_0000)
                  && Pays(At(s, payer), OpeningCost(c, s, d, args.seeds),
                          Lamports(s, Record(d)) == 0 || Lamports(s, Metadata(d)) == 0)
                  && (staged == [] || |staged| == |At(s, d).data|))
            && (r.Ok? ==> Begun(c, s, r.value, payer, d, program, args))
  {
    hide HandleDelegate, Total, ProgramAddress, Delegatable, Pays, BelongsTo, Begun, SeedsSize;
    DelegateSucceedsIff(c, s, signers, payer, d, program, args);
    MetadataSize(NewMetadata(payer, args));
    SameCost(c, s, d, args.seeds);
    var r := HandleDelegate(c, s, signers, payer, d, program, args);
    if r.Ok? {
      DelegateBegins(c, s, signers, payer, d, program, args, r.value);
    }
  }

  lemma SameCost(c: Chain, s: Store, d: Key, seeds: seq<Bytes>)
    ensures DelegateCost(c, s, d, 53 + SeedsSize(seeds)) == OpeningCost(c, s, d, seeds)
  {}

  lemma DelegateBegins(c: Chain, s: Store, signers: set<Key>, payer: Key, d: Key, program: Key, args: DelegateArgs,
                       t: Store)
    requires HandleDelegate(c, s, signers, payer, d, program, args) == Ok(t)
    requires !ProgramAddress(payer) && Delegatable(d)
    ensures Begun(c, s, t, payer, d, program, args)
  {
    hide HandleDelegate, Total, Frame, ProgramAddress, Delegatable, EncodeRecord, DecodeRecord, EncodeMetadata,
         DecodeMetadata, SessionKeys, Encodable, SeedsSize;
    var u := DelegateAccounts(c, s, signers, payer, d, program, args, t);
    SessionAddresses(d, payer);
    RecordRoundTrip(NewRecord(s, d, program, args));
    MetadataRoundTrip(NewMetadata(payer, args));
    MetadataSize(NewMetadata(payer, args));
    assert Staging(d, program) == DelegateBuffer(d, program);
    assert At(u, Staging(d, program)).data == At(s, Staging(d, program)).data;
    assert At(t, Record(d)) == At(u, Record(d)) && At(t, Metadata(d)) == At(u, Metadata(d));
    forall k | k !in {Record(d), Metadata(d), d, payer} ensures At(t, k) == At(s, k) {
      assert At(t, k) == At(u, k);
    }
  }

  /** An escrow account's delegation: the program assigns it to itself, signs for it, and sets its seeds; everything
      else is as the caller asked. */
  lemma DelegateEscrowContract(c: Chain, s: Store, signers: set<Key>, payer: Key, of: Key, index: byte,
                               args: DelegateArgs)
    requires !ProgramAddress(payer) && Total(s) < U64_LIMIT
    ensures var r, escrow := Handle(c, s, signers, DelegateEscrow(payer, of, index, args)), Escrow(of, index);
            var seeds: seq<Bytes> := [Ascii("balance"), KeyBytes(of), [B(index)]];
            var staged := At(s, Staging(escrow, System)).data;
            && (r.Ok? <==>
                  && payer in signers && of in signers && (OfProgram(s, escrow) || At(s, escrow).owner == System)
                  && Unused(s, Record(escrow)) && Unused(s, Metadata(escrow))
                  && Pays(At(s, payer), OpeningCost(c, s, escrow, seeds),
                          Lamports(s, Record(escrow)) == 0 || Lamports(s, Metadata(escrow)) == 0)
                  && (staged == [] || |staged| == |At(s, escrow).data|))
            && (r.Ok? ==> Begun(c, s, r.value, payer, escrow, System, args.(seeds := seeds)))
  {
    hide HandleDelegate, Total, Pays, Begun, SeedsSize, Frame, BelongsTo;
    var escrow := Escrow(of, index);
    var seeds: seq<Bytes> := [Ascii("balance"), KeyBytes(of), [B(index)]];
    var taken := AssignToDlp(s, escrow);
    if taken.Ok? {
      RewriteEffect(s, escrow, At(s, escrow).(owner := Dlp));
      var s1 := taken.value;
      EscrowBelongs(of, index);
      DelegateContract(c, s1, signers + {escrow}, payer, escrow, System, args.(seeds := seeds));
      AssignedSame(c, s, s1, escrow, payer, seeds);
      var r := HandleDelegate(c, s1, signers + {escrow}, payer, escrow, System, args.(seeds := seeds));
      if r.Ok? {
        AssignedBegun(c, s, s1, r.value, payer, escrow, args.(seeds := seeds));
      }
    }
  }

  lemma EscrowBelongs(of: Key, index: byte)
    ensures BelongsTo(Escrow(of, index), System, [Ascii("balance"), KeyBytes(of), [B(index)]])
  {}

  /** Assigning changes nothing the delegation looks at. */
  lemma AssignedSame(c: Chain, s: Store, s1: Store, d: Key, payer: Key, seeds: seq<Bytes>)
    requires d.Escrow? && !ProgramAddress(payer)
    requires s1 == s || s1 == s[d := At(s, d).(owner := Dlp)]
    ensures OpeningCost(c, s1, d, seeds) == OpeningCost(c, s, d, seeds)
    ensures At(s1, Staging(d, System)) == At(s, Staging(d, System)) && At(s1, payer) == At(s, payer)
    ensures At(s1, Record(d)) == At(s, Record(d)) && At(s1, Metadata(d)) == At(s, Metadata(d))
  {
    hide SeedsSize;
  }

  lemma AssignedBegun(c: Chain, s: Store, s1: Store, t: Store, payer: Key, d: Key, args: DelegateArgs)
    requires d.Escrow? && !ProgramAddress(payer)
    requires s1 == s || s1 == s[d := At(s, d).(owner := Dlp)]
    requires Begun(c, s1, t, payer, d, System, args)
    ensures Begun(c, s, t, payer, d, System, args)
  {
    hide SeedsSize, DecodeRecord, DecodeMetadata;
    AssignedSame(c, s, s1, d, payer, args.seeds);
  }

  // ---- Commit ----

  /** What a commit takes from its validator: what it commits above the recorded balance, and then what the two accounts
      lack of their rent. */
  function Raise(recorded: nat, args: CommitArgs): nat {
    if args.lamports > recorded then args.lamports - recorded else 0
  }

  function StateCost(c: Chain, s: Store, d: Key, recorded: nat, args: CommitArgs): nat {
    Lacks(Lamports(s, CommitState(d)) + Raise(recorded, args), c.rent(|args.state|))
  }

  function RecordCost(c: Chain, s: Store, d: Key): nat {
    Lacks(Lamports(s, CommitRecord(d)), c.rent(88))
  }

  /** The accounts of a commit that waits to be finalized. */
  ghost predicate Waiting(c: Chain, s: Store, t: Store, v: Key, d: Key, args: CommitArgs)
    requires SessionOk(s, d) && Abs(s, d).Live?
  {
    var recorded := Abs(s, d).recorded;
    && Holds(At(t, CommitState(d)), Dlp,
             Lamports(s, CommitState(d)) + Raise(recorded, args) + StateCost(c, s, d, recorded, args), args.state)
    && At(t, CommitRecord(d)).owner == Dlp
    && Lamports(t, CommitRecord(d)) == Lamports(s, CommitRecord(d)) + RecordCost(c, s, d)
    && DecodeCommitRecord(At(t, CommitRecord(d)).data) == Ok(CommitRecordData(v, d, args.slot, args.lamports))
    && At(t, Metadata(d)).owner == Dlp && Lamports(t, Metadata(d)) == Lamports(s, Metadata(d))
    && DecodeMetadata(At(t, Metadata(d)).data)
       == Ok(DelegationMetadata(Abs(s, d).slot, args.allowUndelegation, Abs(s, d).seeds, Abs(s, d).rentPayer))
    && Lost(s, t, v, Raise(recorded, args) + StateCost(c, s, d, recorded, args) + RecordCost(c, s, d))
    && Rest(s, t, {CommitState(d), CommitRecord(d), Metadata(d), v})
  }

  /** A commit, with its bytes: when it succeeds, and that an older slot changes nothing. */
  lemma CommitExactly(c: Chain, s: Store, signers: set<Key>, v: Key, d: Key, args: CommitArgs)
    requires Inv(c, s) && !ProgramAddress(v) && Total(s) < U64_LIMIT
    ensures SessionOk(s, d)
    ensures var r, x := HandleCommit(c, s, signers, v, d, args), Abs(s, d);
            && (r.Ok? <==> Committable(c, s, signers, v, d, args))
            && (r.Ok? ==> if args.slot < x.slot then r.value == s else Waiting(c, s, r.value, v, d, args))
  {
    hide HandleCommit, Total, ProgramAddress, SessionOk, Abs, Pays, CommitCost, Approved, Waiting, VaultOk, ConfigOk;
    assert SessionOk(s, d);
    var r := HandleCommit(c, s, signers, v, d, args);
    CommitGuards(c, s, signers, v, d, args);
    if v in signers && Abs(s, d).Live? && OfProgram(s, ValidatorVault(v)) && Abs(s, d).slot <= args.slot {
      CommitSucceedsIff(c, s, signers, v, d, args);
      SameCommitCost(c, s, d, Abs(s, d).recorded, args);
      if r.Ok? {
        CommitWaits(c, s, signers, v, d, args, r.value);
      }
    }
  }

  /** When a commit succeeds. */
  ghost predicate Committable(c: Chain, s: Store, signers: set<Key>, v: Key, d: Key, args: CommitArgs)
    requires SessionOk(s, d)
  {
    var x := Abs(s, d);
    && v in signers && x.Live? && OfProgram(s, ValidatorVault(v))
    && (args.slot < x.slot ||
        (&& !x.flag && x.pending.None?
         && (Approved(s, x.owner).None? || v in Approved(s, x.owner).value)
         && Pays(At(s, v), Raise(x.recorded, args) + StateCost(c, s, d, x.recorded, args) + RecordCost(c, s, d),
                 Lamports(s, CommitState(d)) + Raise(x.recorded, args) == 0 || Lamports(s, CommitRecord(d)) == 0)))
  }

  lemma SameCommitCost(c: Chain, s: Store, d: Key, recorded: nat, args: CommitArgs)
    ensures CommitCost(c, s, d, recorded, args)
            == Raise(recorded, args) + StateCost(c, s, d, recorded, args) + RecordCost(c, s, d)
    ensures Above(args.lamports, recorded) == Raise(recorded, args)
  {}

  /** The guards of commit come to a live session, a signature and a vault; with an older slot there is nothing more. */
  lemma CommitGuards(c: Chain, s: Store, signers: set<Key>, v: Key, d: Key, args: CommitArgs)
    requires SessionOk(s, d)
    ensures var r := HandleCommit(c, s, signers, v, d, args);
            var guarded := v in signers && Abs(s, d).Live? && OfProgram(s, ValidatorVault(v));
            && (!guarded ==> r.Err?)
            && (guarded && args.slot < Abs(s, d).slot ==> r == Ok(s))
  {
    hide DecodeRecord, EncodeRecord, DecodeMetadata, EncodeMetadata, PostCollateral, Admitted, StoreCommit, Overwrite,
         PendingOk;
  }

  lemma CommitWaits(c: Chain, s: Store, signers: set<Key>, v: Key, d: Key, args: CommitArgs, t: Store)
    requires HandleCommit(c, s, signers, v, d, args) == Ok(t)
    requires SessionOk(s, d) && Abs(s, d).Live? && Abs(s, d).slot <= args.slot
    requires !ProgramAddress(v) && Total(s) < U64_LIMIT
    ensures Waiting(c, s, t, v, d, args)
  {
    hide HandleCommit, StoreCommit, PostCollateral, Total, Frame, ProgramAddress, Delegatable, DecodeRecord,
         EncodeRecord, DecodeMetadata, EncodeMetadata, EncodeCommitRecord, DecodeCommitRecord, PendingOk, SessionKeys,
         Admitted, Lacks, Pays;
    assert !Stale(s, d, args.slot) by { NotStale(s, d, args.slot); }
    var u := CommitPrepared(c, s, signers, v, d, args, t);
    var m := MetadataOf(s, d).(isUndelegatable := args.allowUndelegation);
    var s1 := SetData(s, Metadata(d), EncodeMetadata(m));
    var recorded := RecordOf(s, d).lamports;
    RewriteEffect(s, Metadata(d), At(s1, Metadata(d)));
    CommitAddresses(d, v);
    Posted(s1, v, d, recorded, args, u);
    Stored(c, u, v, d, args, t);
    MetadataRoundTrip(m);
    CommitRecordRoundTrip(CommitRecordData(v, d, args.slot, args.lamports));
  }

  lemma NotStale(s: Store, d: Key, slot: u64)
    requires SessionOk(s, d) && Abs(s, d).Live? && Abs(s, d).slot <= slot
    ensures !Stale(s, d, slot)
  {
    hide RecordOk, PendingOk, RecordOf, CommitOf;
  }

  lemma Posted(s: Store, v: Key, d: Key, recorded: u64, args: CommitArgs, t: Store)
    requires PostCollateral(s, v, d, recorded, args.lamports) == Ok(t) && !ProgramAddress(v) && Total(s) < U64_LIMIT
    ensures Lost(s, t, v, Raise(recorded, args)) && Gained(s, t, CommitState(d), Raise(recorded, args))
    ensures Rest(s, t, {v, CommitState(d)}) && Total(t) == Total(s)
  {
    hide Total, Transfer, Pays, Frame;
    CommitAddresses(d, v);
    if args.lamports > recorded {
      TransferPays(s, v, CommitState(d), args.lamports - recorded);
      TransferEffect(s, v, CommitState(d), args.lamports - recorded, t);
    }
  }

  lemma Stored(c: Chain, s: Store, v: Key, d: Key, args: CommitArgs, t: Store)
    requires StoreCommit(c, s, v, d, args) == Ok(t) && !ProgramAddress(v) && Total(s) < U64_LIMIT
    ensures var state, record := Lacks(Lamports(s, CommitState(d)), c.rent(|args.state|)), RecordCost(c, s, d);
            && Holds(At(t, CommitState(d)), Dlp, Lamports(s, CommitState(d)) + state, args.state)
            && Holds(At(t, CommitRecord(d)), Dlp, Lamports(s, CommitRecord(d)) + record,
                     EncodeCommitRecord(CommitRecordData(v, d, args.slot, args.lamports)))
            && Lost(s, t, v, state + record) && Rest(s, t, {CommitState(d), CommitRecord(d), v})
  {
    hide StoreCommit, CreatePda, Total, ProgramAddress, EncodeCommitRecord, Pays, Lacks;
    CommitAddresses(d, v);
    var s1, s2, s3 := StoreCommitStages(c, s, v, d, args, t);
    CreatesExactly(c.rent, s, CommitState(d), Dlp, |args.state|, v);
    CreatesExactly(c.rent, s1, CommitRecord(d), Dlp, 88, v);
    forall k | k !in {CommitState(d), CommitRecord(d), v} ensures At(t, k) == At(s, k) {
      assert At(t, k) == At(s2, k) == At(s1, k);
    }
    assert At(s2, CommitState(d)) == At(s1, CommitState(d));
    assert At(t, v) == At(s2, v);
  }

  /** Commit, with the bytes in the instruction. */
  lemma CommitContract(c: Chain, s: Store, signers: set<Key>, v: Key, d: Key, args: CommitArgs)
    requires Inv(c, s) && !ProgramAddress(v) && Total(s) < U64_LIMIT
    ensures SessionOk(s, d)
    ensures var r := Handle(c, s, signers, Commit(v, d, args));
            && (r.Ok? <==> Committable(c, s, signers, v, d, args))
            && (r.Ok? ==> if args.slot < Abs(s, d).slot then r.value == s else Waiting(c, s, r.value, v, d, args))
  {
    hide HandleCommit, Total, ProgramAddress, SessionOk, Abs, Committable, Waiting, VaultOk, ConfigOk;
    CommitExactly(c, s, signers, v, d, args);
  }

  /** Commit, with the bytes in another account, whoever owns it. */
  lemma CommitFromBufferContract(c: Chain, s: Store, signers: set<Key>, v: Key, d: Key, buffer: Key, args: CommitArgs)
    requires Inv(c, s) && !ProgramAddress(v) && Total(s) < U64_LIMIT
    ensures SessionOk(s, d)
    ensures var r, taken := Handle(c, s, signers, CommitFromBuffer(v, d, buffer, args)),
                            CommitArgs(args.slot, args.lamports, args.allowUndelegation, At(s, buffer).data);
            && (r.Ok? <==> Committable(c, s, signers, v, d, taken))
            && (r.Ok? ==> if args.slot < Abs(s, d).slot then r.value == s else Waiting(c, s, r.value, v, d, taken))
  {
    hide HandleCommit, Total, ProgramAddress, SessionOk, Abs, Committable, Waiting, VaultOk, ConfigOk;
    CommitExactly(c, s, signers, v, d, args.(state := At(s, buffer).data));
  }

  // ---- Finalize ----

  /** The accounts of a session after a pending commit was finalized by v. */
  ghost predicate Finished(s: Store, t: Store, v: Key, d: Key)
    requires SessionOk(s, d) && Abs(s, d).Live? && Abs(s, d).pending.Some?
  {
    var x, p := Abs(s, d), Abs(s, d).pending.value;
    var raised := if p.lamports > x.recorded then p.lamports - x.recorded else 0;
    var lowered := if x.recorded > p.lamports then x.recorded - p.lamports else 0;
    var back := Lamports(s, CommitState(d)) - raised + Lamports(s, CommitRecord(d));
    && At(t, d).owner == Dlp && At(t, d).data == p.bytes
    && Lamports(t, d) == Lamports(s, d) + raised - lowered + (if v == d then back else 0)
    && At(t, CommitState(d)) == Account(System, 0, []) && At(t, CommitRecord(d)) == Account(System, 0, [])
    && At(t, Record(d)).owner == Dlp && Lamports(t, Record(d)) == Lamports(s, Record(d))
    && DecodeRecord(At(s, Record(d)).data).Ok?
    && DecodeRecord(At(t, Record(d)).data)
       == Ok(DecodeRecord(At(s, Record(d)).data).value.(lamports := p.lamports + x.surplus))
    && At(t, Metadata(d)).owner == Dlp && Lamports(t, Metadata(d)) == Lamports(s, Metadata(d))
    && DecodeMetadata(At(t, Metadata(d)).data) == Ok(DelegationMetadata(p.slot, x.flag, x.seeds, x.rentPayer))
    && Gained(s, t, ValidatorVault(v), lowered)
    && (v != d ==> Gained(s, t, v, back))
    && Rest(s, t, {d, Record(d), Metadata(d), CommitState(d), CommitRecord(d), v, ValidatorVault(v)})
  }

  /** Finalize: by the validator that committed, or with nothing to do. */
  lemma FinalizeContract(c: Chain, s: Store, signers: set<Key>, v: Key, d: Key)
    requires SessionOk(s, d) && !ProgramAddress(v) && Total(s) < U64_LIMIT
    ensures var r, x := Handle(c, s, signers, Finalize(v, d)), Abs(s, d);
            && (r.Ok? <==>
                  && v in signers && x.Live? && OfProgram(s, ValidatorVault(v))
                  && (x.pending.Some? ==> x.pending.value.identity == v))
            && (r.Ok? ==> if x.pending.None? then r.value == s else Finished(s, r.value, v, d))
  {
    hide HandleFinalize, Total, ProgramAddress, SessionOk, Abs, Finished;
    FinalizeSucceedsIff(c, s, signers, v, d);
    var r := HandleFinalize(c, s, signers, v, d);
    if r.Ok? {
      LiveRecord(s, d);
      if Abs(s, d).pending.None? {
        FinalizeSkipsPaired(c, s, signers, v, d, r.value);
      } else {
        FinalizeSettled(c, s, signers, v, d, r.value);
      }
    }
  }

  lemma FinalizeSettled(c: Chain, s: Store, signers: set<Key>, v: Key, d: Key, t: Store)
    requires HandleFinalize(c, s, signers, v, d) == Ok(t)
    requires SessionOk(s, d) && !ProgramAddress(v) && Abs(s, d).Live? && Abs(s, d).pending.Some?
    ensures Finished(s, t, v, d)
  {
    hide HandleFinalize, ProgramAddress, Delegatable, ApplyCommit, Total, Frame, DecodeRecord, DecodeMetadata,
         DecodeCommitRecord, EncodeRecord, EncodeMetadata, SessionKeys, Encodable, Applies;
    LiveRecord(s, d);
    var r, m, p := FinalizeApplies(c, s, signers, v, d, t);
    var settled := ApplyCommitSession(s, v, d, r, m, p, t);
    ApplyCommitBalances(s, v, d, r, m, p, t);
    ApplyCommitFrame(s, v, d, r, m, p, t);
    ApplyCommitRest(s, v, d, r, m, p, t);
    RecordRoundTrip(r.(lamports := settled));
    MetadataRoundTrip(m.(lastUpdateExternalSlot := p.slot));
  }

  // ---- Undelegate ----

  /** When undelegate succeeds. */
  ghost predicate Undelegatable(c: Chain, s: Store, signers: set<Key>, v: Key, d: Key, program: Key, reimbursement: Key,
                                reply: CpiReply)
    requires SessionOk(s, d)
  {
    var x, buffer := Abs(s, d), UndelegateBuffer(d);
    && v in signers && x.Live? && OfProgram(s, FeesVault) && OfProgram(s, ValidatorVault(v))
    && x.pending.None? && x.flag && x.owner == program && x.rentPayer == reimbursement
    && (At(s, d).data == [] ||
        (&& v != d
         && d.Derived? && d.program != System && d.program != Dlp && !ProgramAddress(d.program)
         && program != System && program != Dlp && !ProgramAddress(program)
         && Pays(At(s, v), Lacks(Lamports(s, buffer), c.rent(|At(s, d).data|)), Lamports(s, buffer) == 0)
         && Conforms(c, s, v, d, reply)))
  }

  /** Undelegate: what it takes, and that nobody but those concerned is touched. */
  lemma UndelegateContract(c: Chain, s: Store, signers: set<Key>, v: Key, d: Key, program: Key, reimbursement: Key,
                           reply: CpiReply)
    requires SessionOk(s, d) && !ProgramAddress(v) && Total(s) < U64_LIMIT / 10
    ensures var r := Handle(c, s, signers, Undelegate(v, d, program, reimbursement, reply));
            && (r.Ok? <==> Undelegatable(c, s, signers, v, d, program, reimbursement, reply))
            && (r.Ok? ==>
                  && At(r.value, d).data == At(s, d).data
                  && At(r.value, Record(d)) == Account(System, 0, [])
                  && At(r.value, Metadata(d)) == Account(System, 0, [])
                  && Rest(s, r.value, {d, Record(d), Metadata(d), reimbursement, ValidatorVault(v), FeesVault}
                                      + if At(s, d).data == [] then {} else {v, UndelegateBuffer(d)}))
  {
    hide HandleUndelegate, Total, ProgramAddress, SessionOk, Abs, Conforms, Frame, SessionKeys, Pays;
    var r := HandleUndelegate(c, s, signers, v, d, program, reimbursement, reply);
    if r.Ok? {
      UndelegateSigned(c, s, signers, v, d, program, reimbursement, reply);
      UndelegateNeeds(c, s, signers, v, d, program, reimbursement, reply);
      UndelegateGates(c, s, signers, v, d, program, reimbursement, reply, r.value);
      UndelegateEffect(c, s, signers, v, d, program, reimbursement, reply, r.value);
      UndelegateRest(c, s, signers, v, d, program, reimbursement, reply, r.value);
    }
    if v in signers && Abs(s, d).Live? && OfProgram(s, FeesVault) && OfProgram(s, ValidatorVault(v))
       && Abs(s, d).pending.None? && Abs(s, d).flag && Abs(s, d).owner == program
       && Abs(s, d).rentPayer == reimbursement
    {
      UndelegateSucceedsIff(c, s, signers, v, d, reply);
    }
  }

  lemma UndelegateNeeds(c: Chain, s: Store, signers: set<Key>, v: Key, d: Key, program: Key, reimbursement: Key,
                        reply: CpiReply)
    requires HandleUndelegate(c, s, signers, v, d, program, reimbursement, reply).Ok?
    ensures v in signers && OfProgram(s, FeesVault) && OfProgram(s, ValidatorVault(v))
  {
    hide ReturnData, Cleanup, DecodeRecord, DecodeMetadata;
  }
}
