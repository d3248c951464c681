/** Which error an instruction is refused with: the first requirement that is not met decides. */
module Refusals {
  import opened Outcomes
  import opened Octets
  import opened Layouts
  import opened Formats
  import opened Store
  import opened Handlers
  import opened Invariants
  import opened SessionEffects
  import opened ConfigEffects
  import opened Guarantees
  import opened Contracts

  /** What is wrong with an account that should be unused. */
  function Occupied(s: Store, k: Key): Error {
    if At(s, k).owner != System then InvalidAccountOwner else AccountAlreadyInitialized
  }

  /** What is wrong with a payer: data, too little, or another owner. */
  function Insolvent(a: Account, cost: nat): Error {
    if a.data != [] then InvalidArgument
    else if cost > a.lamports then InsufficientFunds
    else ExternalLamportSpend
  }

  /** A transfer that is not possible. */
  lemma TransferRefused(s: Store, from: Key, to: Key, amount: u64)
    requires from != to && Total(s) < U64_LIMIT
    ensures !Pays(At(s, from), amount, true) ==> Transfer(s, from, to, amount) == Err(Insolvent(At(s, from), amount))
  {
    hide Total;
    TotalCoversTwo(s, from, to);
  }

  /** A creation that is not possible: the payer is looked at first if the account holds something but not enough. */
  lemma CreationRefused(rent: nat -> u64, s: Store, target: Key, owner: Key, space: nat, payer: Key)
    requires target != payer && Total(s) < U64_LIMIT && Unused(s, target)
    ensures var r, lacks := CreatePda(rent, s, target, owner, space, payer), Lacks(Lamports(s, target), rent(space));
            !Pays(At(s, payer), lacks, Lamports(s, target) == 0) ==> r == Err(Insolvent(At(s, payer), lacks))
  {
    hide Total, Zeroes;
    TotalCoversTwo(s, target, payer);
  }

  // ---- Sessions ----

  /** A delegation. */
  lemma DelegationRefused(c: Chain, s: Store, signers: set<Key>, payer: Key, d: Key, program: Key, args: DelegateArgs)
    ensures var r := Handle(c, s, signers, Delegate(payer, d, program, args));
            && (!OfProgram(s, d) ==> r == Err(InvalidAccountOwner))
            && (OfProgram(s, d) && !BelongsTo(d, program, args.seeds) ==> r == Err(InvalidSeeds))
            && (OfProgram(s, d) && BelongsTo(d, program, args.seeds) ==>
                  if !Unused(s, Record(d)) then r == Err(Occupied(s, Record(d)))
                  else if !Unused(s, Metadata(d)) then r == Err(Occupied(s, Metadata(d)))
                  else payer !in signers || d !in signers ==> r == Err(MissingRequiredSignature))
  {
    hide CreatePda, Derivation, Flat, DelegateBuffer, EncodeRecord, EncodeMetadata, Encodable;
  }

  /** A commit of a live session by a validator with a vault. */
  lemma CommitRefusals(c: Chain, s: Store, signers: set<Key>, v: Key, d: Key, args: CommitArgs)
    requires Inv(c, s) && SessionOk(s, d) && !ProgramAddress(v) && Total(s) < U64_LIMIT
    ensures var r, x := Handle(c, s, signers, Commit(v, d, args)), Abs(s, d);
            && (!OfProgram(s, d) ==> r == Err(InvalidAccountOwner))
            && (OfProgram(s, d) && v !in signers ==> r == Err(MissingRequiredSignature))
            && (OfProgram(s, d) && v in signers && (!x.Live? || !OfProgram(s, ValidatorVault(v))) ==>
                  r == Err(InvalidAccountOwner))
            && (v in signers && x.Live? && OfProgram(s, ValidatorVault(v)) && x.slot <= args.slot ==>
                  var raise := if args.lamports > x.recorded then args.lamports - x.recorded else 0;
                  var approved := Approved(s, x.owner);
                  if x.flag then r == Err(AlreadyUndelegated)
                  else if raise > 0 && !Pays(At(s, v), raise, true) then r == Err(Insolvent(At(s, v), raise))
                  else if approved.Some? && v !in approved.value then r == Err(InvalidWhitelistProgramConfig)
                  else x.pending.Some? ==> r == Err(InvalidAccountOwner))
  {
    hide Total, ProgramAddress, Delegatable, DecodeRecord, EncodeRecord, DecodeMetadata, EncodeMetadata, PostCollateral,
         Admitted, StoreCommit, Overwrite, PendingOk, VaultOk, ConfigOk, Approved, Pays, Insolvent;
    if v in signers && Abs(s, d).Live? && OfProgram(s, ValidatorVault(v)) && Abs(s, d).slot <= args.slot {
      var m, r := MetadataOf(s, d), RecordOf(s, d);
      MetadataRewrite(m, m.lastUpdateExternalSlot, args.allowUndelegation);
      var s1 := SetData(s, Metadata(d), EncodeMetadata(m.(isUndelegatable := args.allowUndelegation)));
      RecordUntouched(s, s1, d);
      RewriteEffect(s, Metadata(d), At(s1, Metadata(d)));
      assert ConfigOk(c, s, r.owner);
      if Abs(s, d).pending.Some? {
        PendingOwned(s, d);
      }
      assert At(s1, CommitState(d)) == At(s, CommitState(d)) && At(s1, v) == At(s, v) by { PlainApart(s, s1, v, d); }
      StoreRefusals(c, s, s1, v, d, r, args);
    }
  }

  lemma PlainApart(s: Store, s1: Store, v: Key, d: Key)
    requires !ProgramAddress(v) && s1 == SetData(s, Metadata(d), At(s1, Metadata(d)).data)
    ensures At(s1, CommitState(d)) == At(s, CommitState(d)) && At(s1, v) == At(s, v)
  {}

  lemma PendingOwned(s: Store, d: Key)
    requires SessionOk(s, d) && Abs(s, d).Live? && Abs(s, d).pending.Some?
    ensures OfProgram(s, CommitState(d))
  {
    hide RecordOk, MetadataOk, RecordOf, MetadataOf, CommitOf;
  }

  /** The steps of a commit after its flag is written: collateral, gate, and no other commit. */
  lemma StoreRefusals(c: Chain, s: Store, s1: Store, v: Key, d: Key, r: DelegationRecord, args: CommitArgs)
    requires !ProgramAddress(v) && Total(s1) < U64_LIMIT && ConfigOk(c, s, r.owner)
    requires At(s1, Config(r.owner)) == At(s, Config(r.owner))
    requires At(s1, CommitState(d)) == At(s, CommitState(d)) && At(s1, v) == At(s, v)
    ensures var posted := PostCollateral(s1, v, d, r.lamports, args.lamports);
            var raise := if args.lamports > r.lamports then args.lamports - r.lamports else 0;
            var approved := Approved(s, r.owner);
            if raise > 0 && !Pays(At(s, v), raise, true) then posted == Err(Insolvent(At(s, v), raise))
            else
              && posted.Ok?
              && (if approved.Some? && v !in approved.value
                  then Admitted(posted.value, r.owner, v) == Fail(InvalidWhitelistProgramConfig)
                  else
                    && Admitted(posted.value, r.owner, v).Pass?
                    && (OfProgram(s, CommitState(d)) ==>
                          StoreCommit(c, posted.value, v, d, args) == Err(InvalidAccountOwner)))
  {
    hide Total, Transfer, Admitted, ConfigOk, Approved, Pays, Insolvent, CreatePda, EncodeCommitRecord;
    CommitAddresses(d, v);
    GateRefuses(c, s, r.owner, v);
    if args.lamports > r.lamports {
      TransferRefused(s1, v, CommitState(d), args.lamports - r.lamports);
      TransferPays(s1, v, CommitState(d), args.lamports - r.lamports);
    }
    var posted := PostCollateral(s1, v, d, r.lamports, args.lamports);
    if posted.Ok? {
      CollateralLeaves(s1, v, d, r.lamports, args.lamports, posted.value);
      SameConfigSameGate(s, posted.value, r.owner, v);
      CollateralOwner(s1, v, d, r.lamports, args.lamports, posted.value);
    }
  }

  lemma CollateralOwner(s: Store, v: Key, d: Key, recorded: u64, committed: u64, t: Store)
    requires PostCollateral(s, v, d, recorded, committed) == Ok(t)
    ensures At(t, CommitState(d)).owner == At(s, CommitState(d)).owner
  {}

  lemma GateRefuses(c: Chain, s: Store, program: Key, v: Key)
    requires ConfigOk(c, s, program)
    ensures Admitted(s, program, v) ==
            if Approved(s, program).Some? && v !in Approved(s, program).value
            then Fail(InvalidWhitelistProgramConfig) else Pass
  {
    hide EncodeConfig;
  }

  /** A finalize: without a signature, a session or a vault. */
  lemma FinalizeRefusals(c: Chain, s: Store, signers: set<Key>, v: Key, d: Key)
    requires SessionOk(s, d)
    ensures var r := Handle(c, s, signers, Finalize(v, d));
            && (v !in signers ==> r == Err(MissingRequiredSignature))
            && (v in signers && (!Abs(s, d).Live? || !OfProgram(s, ValidatorVault(v))) ==>
                  r == Err(InvalidAccountOwner))
  {
    hide ApplyCommit, DecodeRecord, EncodeRecord, DecodeMetadata, EncodeMetadata, PendingOk;
  }

  /** An undelegation: who asks, for what, and on whose behalf. */
  lemma UndelegateRefusals(c: Chain, s: Store, signers: set<Key>, v: Key, d: Key, program: Key, reimbursement: Key,
                           reply: CpiReply)
    requires SessionOk(s, d)
    ensures var r, x := Handle(c, s, signers, Undelegate(v, d, program, reimbursement, reply)), Abs(s, d);
            if v !in signers then r == Err(MissingRequiredSignature)
            else if !x.Live? || !OfProgram(s, FeesVault) || !OfProgram(s, ValidatorVault(v)) then
              r == Err(InvalidAccountOwner)
            else if x.pending.Some? || x.owner != program then r == Err(InvalidAccountOwner)
            else if !x.flag then r == Err(NotUndelegatable)
            else x.rentPayer != reimbursement ==> r == Err(InvalidReimbursementAddress)
  {
    hide ReturnData, Cleanup, DecodeRecord, EncodeRecord, DecodeMetadata, EncodeMetadata, DecodeCommitRecord, Encodable,
         ProgramAddress, Delegatable;
  }

  /** What is checked after the owner program was called, in this order: what the validator was charged, that the bytes
      are back, and that the account could pay for its rent. */
  lemma ReopenRefused(c: Chain, s: Store, v: Key, d: Key, reply: CpiReply, closed: Store, called: Store)
    requires ClosePda(s, d, v) == Ok(closed) && CallOwnerProgram(closed, d, UndelegateBuffer(d), v, reply) == Ok(called)
    ensures var r, minimum := ReopenByCpi(c, s, v, d, reply), c.rent(|At(called, d).data|);
            && (Lamports(called, v) + minimum >= 0x1_0000_0000_0000_0000 ==> r == Err(Overflow))
            && (Lamports(called, v) + minimum < 0x1_0000_0000_0000_0000 ==>
                  if Lamports(called, v) + minimum != Lamports(closed, v) then r == Err(InvalidValidatorBalanceAfterCpi)
                  else if At(called, d).data != At(called, UndelegateBuffer(d)).data then
                    r == Err(InvalidAccountDataAfterCpi)
                  else minimum > Lamports(s, d) ==> r == Err(Overflow))
  {
    hide ClosePda, CallOwnerProgram, Transfer, At;
  }

  /** A program that cannot be called, or that fails, fails the undelegation of an account with data. */
  lemma CallRefused(c: Chain, s: Store, v: Key, d: Key, program: Key, reply: CpiReply)
    requires program == System || program == Dlp || ProgramAddress(program) || reply.CpiFails?
    requires Total(s) < U64_LIMIT && v != d
    ensures ReopenByCpi(c, s, v, d, Answer(program, reply)) == Err(CpiFailed)
  {
    hide Total, ProgramAddress;
    ClosePdaSucceeds(s, d, v);
  }

  // ---- In any store at all, whether the program could have led there or not ----

  /** A delegation that lacks nothing but seeds that can be counted, or staged bytes of the right length. */
  lemma SeedsOrStagingRefused(c: Chain, s: Store, signers: set<Key>, payer: Key, d: Key, program: Key,
                              args: DelegateArgs)
    requires !ProgramAddress(payer) && Delegatable(d) && Total(s) < U64_LIMIT
    requires payer in signers && d in signers && OfProgram(s, d) && BelongsTo(d, program, args.seeds)
    requires Unused(s, Record(d)) && Unused(s, Metadata(d))
    requires Pays(At(s, payer), Lacks(Lamports(s, Record(d)), c.rent(96)), Lamports(s, Record(d)) == 0)
    ensures var r := Handle(c, s, signers, Delegate(payer, d, program, args));
            var long := |args.seeds| >= 0x1_0000_0000 || exists b :: b in args.seeds && |b| >= 0x1_0000_0000;
            var staged := At(s, DelegateBuffer(d, program)).data;
            && (long ==> r == Err(InvalidAccountData))
            && (!long && staged != [] && |staged| != |At(s, d).data|
                && Pays(At(s, payer), DelegateCost(c, s, d, |EncodeMetadata(NewMetadata(payer, args))|),
                        CreatesFromNothing(s, Record(d), Metadata(d))) ==>
                  r == Err(Panic))
  {
    hide Total, Frame, ProgramAddress, Delegatable, DelegateBuffer, Derivation, Flat, EncodeRecord, EncodeMetadata,
         CreatePda, Zeroes, Shortfall, Pays;
    SessionAddresses(d, payer);
    StagingIsDerived(d, program);
    var first := Shortfall(Lamports(s, Record(d)), c.rent(96));
    ShortfallIsLacks(Lamports(s, Record(d)), c.rent(96));
    var bytes := EncodeMetadata(NewMetadata(payer, args));
    var second := Shortfall(Lamports(s, Metadata(d)), c.rent(|bytes|));
    CreateSucceedsIff(c.rent, s, Record(d), Dlp, RECORD_SIZE, payer);
    var created := CreatePda(c.rent, s, Record(d), Dlp, RECORD_SIZE, payer).value;
    var record := EncodeRecord(NewRecord(created, d, program, args));
    CreatedAndWritten(c.rent, s, Record(d), Dlp, RECORD_SIZE, payer, created, record);
    var s2 := SetData(created, Record(d), record);
    PaysTwice(At(s, payer), At(s2, payer), first, Lamports(s, Record(d)) == 0, second, Lamports(s, Metadata(d)) == 0);
    CreateSucceedsIff(c.rent, s2, Metadata(d), Dlp, |bytes|, payer);
    var created2 := CreatePda(c.rent, s2, Metadata(d), Dlp, |bytes|, payer);
    if created2.Ok? {
      CreatedAndWritten(c.rent, s2, Metadata(d), Dlp, |bytes|, payer, created2.value, bytes);
      SameStaging(s, s2, SetData(created2.value, Metadata(d), bytes), d, program, payer);
    }
  }

  lemma ShortfallIsLacks(held: u64, minimum: u64)
    ensures Shortfall(held, minimum) == Lacks(held, minimum)
  {}

  /** A commit: accounts of the program that it can read, and a balance that covers the recorded one. */
  lemma CommitAnywhere(c: Chain, s: Store, signers: set<Key>, v: Key, d: Key, args: CommitArgs)
    requires OfProgram(s, d) && v in signers
    ensures var r := Handle(c, s, signers, Commit(v, d, args));
            if !OfProgram(s, Record(d)) || !OfProgram(s, Metadata(d)) || !OfProgram(s, ValidatorVault(v)) then
              r == Err(InvalidAccountOwner)
            else match DecodeMetadata(At(s, Metadata(d)).data)
              case Err(_) => r == Err(InvalidAccountData)
              case Ok(m) =>
                if args.slot < m.lastUpdateExternalSlot then r == Ok(s)
                else if m.isUndelegatable then r == Err(AlreadyUndelegated)
                else match DecodeRecord(At(s, Record(d)).data)
                  case Err(_) => r == Err(InvalidAccountData)
                  case Ok(record) => record.lamports > Lamports(s, d) ==> r == Err(InvalidDelegatedState)
  {
    hide PostCollateral, StoreCommit, Admitted, DecodeRecord, DecodeMetadata, DecodeCommitRecord, DecodeConfig,
         EncodeMetadata, Overwrite, SetData, At, Lamports;
    ParseErrors(At(s, Metadata(d)).data);
    ParseErrors(At(s, Record(d)).data);
    if DecodeMetadata(At(s, Metadata(d)).data).Ok? {
      var m := DecodeMetadata(At(s, Metadata(d)).data).value;
      MetadataCanonical(At(s, Metadata(d)).data, m);
      MetadataRewrite(m, m.lastUpdateExternalSlot, args.allowUndelegation);
      FlagOnly(s, d, EncodeMetadata(m.(isUndelegatable := args.allowUndelegation)));
    }
  }

  /** Writing metadata leaves record and balance alone. */
  lemma FlagOnly(s: Store, d: Key, data: Bytes)
    ensures var t := SetData(s, Metadata(d), data);
            At(t, Record(d)) == At(s, Record(d)) && Lamports(t, d) == Lamports(s, d)
  {
    assert d < Metadata(d);
  }

  /** Every parser has the same error. */
  lemma ParseErrors(data: Bytes)
    ensures DecodeRecord(data).Err? ==> DecodeRecord(data) == Err(InvalidAccountData)
    ensures DecodeCommitRecord(data).Err? ==> DecodeCommitRecord(data) == Err(InvalidAccountData)
    ensures DecodeMetadata(data).Err? ==> DecodeMetadata(data) == Err(InvalidAccountData)
    ensures DecodeConfig(data).Err? ==> DecodeConfig(data) == Err(InvalidAccountData)
  {
    hide TakeRecord, TakeCommitRecord, TakeMetadata, TakeConfig;
  }

  /** The gate: open while the config account belongs to the system program, otherwise as the config it reads says. */
  lemma GateAnywhere(s: Store, program: Key, v: Key)
    ensures var gate, config := Admitted(s, program, v), At(s, Config(program));
            if config.owner == System then gate == Pass
            else match DecodeConfig(config.data)
              case Err(_) => gate == Fail(InvalidAccountData)
              case Ok(approved) => gate == if v in approved then Pass else Fail(InvalidWhitelistProgramConfig)
  {
    hide DecodeRecord, DecodeCommitRecord, DecodeMetadata, DecodeConfig;
    ParseErrors(At(s, Config(program)).data);
  }

  /** A finalize: both commit accounts or none, readable, about this account and by this validator. */
  lemma FinalizeAnywhere(c: Chain, s: Store, signers: set<Key>, v: Key, d: Key)
    requires v in signers && OfProgram(s, ValidatorVault(v))
    ensures var r := Handle(c, s, signers, Finalize(v, d));
            if !OfProgram(s, d) || !OfProgram(s, Record(d)) || !OfProgram(s, Metadata(d)) then
              r == Err(InvalidAccountOwner)
            else if Unused(s, CommitState(d)) && Unused(s, CommitRecord(d)) then r == Ok(s)
            else if !OfProgram(s, CommitState(d)) || !OfProgram(s, CommitRecord(d)) then r == Err(InvalidAccountOwner)
            else if DecodeMetadata(At(s, Metadata(d)).data).Err? || DecodeRecord(At(s, Record(d)).data).Err?
                 || DecodeCommitRecord(At(s, CommitRecord(d)).data).Err? then r == Err(InvalidAccountData)
            else
              var commit := DecodeCommitRecord(At(s, CommitRecord(d)).data).value;
              if commit.account != d then r == Err(InvalidDelegatedAccount)
              else commit.identity != v ==> r == Err(InvalidReimbursementAccount)
  {
    hide Settle, WriteFinalized, ClosePda, DecodeRecord, DecodeMetadata, DecodeCommitRecord, DecodeConfig;
    ParseErrors(At(s, Metadata(d)).data);
    ParseErrors(At(s, Record(d)).data);
    ParseErrors(At(s, CommitRecord(d)).data);
  }

  /** A settlement that the source cannot pay, or that its destination cannot hold. */
  lemma SettleRefused(s: Store, d: Key, v: Key, recorded: u64, committed: u64)
    ensures var r := Settle(s, d, v, recorded, committed);
            && (recorded > committed ==>
                  (r == Err(Overflow) <==>
                     || Lamports(s, d) < recorded - committed
                     || (&& d != ValidatorVault(v)
                         && Lamports(s, ValidatorVault(v)) + (recorded - committed) >= 0x1_0000_0000_0000_0000)))
            && (recorded < committed ==>
                  (r == Err(Overflow) <==>
                     || Lamports(s, CommitState(d)) < committed - recorded
                     || Lamports(s, d) + (committed - recorded) >= 0x1_0000_0000_0000_0000))
  {
    assert d < CommitState(d);
  }

  /** The accounts an undelegation reads are the program's. */
  predicate SessionReadable(s: Store, v: Key, d: Key) {
    OfProgram(s, d) && OfProgram(s, Record(d)) && OfProgram(s, Metadata(d)) && OfProgram(s, FeesVault)
    && OfProgram(s, ValidatorVault(v))
  }

  /** An undelegation: the accounts of the session, no commit, and what the parsers read. */
  lemma UndelegateAnywhere(c: Chain, s: Store, signers: set<Key>, v: Key, d: Key, program: Key, reimbursement: Key,
                           reply: CpiReply)
    requires v in signers
    ensures var r := Handle(c, s, signers, Undelegate(v, d, program, reimbursement, reply));
            if !SessionReadable(s, v, d) then r == Err(InvalidAccountOwner)
            else if !Unused(s, CommitState(d)) then r == Err(Occupied(s, CommitState(d)))
            else if !Unused(s, CommitRecord(d)) then r == Err(Occupied(s, CommitRecord(d)))
            else if DecodeRecord(At(s, Record(d)).data).Err? then r == Err(InvalidAccountData)
            else if DecodeRecord(At(s, Record(d)).data).value.owner != program then r == Err(InvalidAccountOwner)
            else if DecodeMetadata(At(s, Metadata(d)).data).Err? then r == Err(InvalidAccountData)
            else
              var meta := DecodeMetadata(At(s, Metadata(d)).data).value;
              if !meta.isUndelegatable then r == Err(NotUndelegatable)
              else if meta.rentPayer != reimbursement then r == Err(InvalidReimbursementAddress)
              else At(s, d).data != [] && !Unused(s, UndelegateBuffer(d)) ==>
                     r == Err(Occupied(s, UndelegateBuffer(d)))
  {
    hide MayUndelegate, CreatePda, ReopenByCpi, ClosePda, Cleanup, DecodeRecord, DecodeMetadata;
    MayAnywhere(s, signers, v, d, program, reimbursement);
  }

  lemma MayAnywhere(s: Store, signers: set<Key>, v: Key, d: Key, program: Key, reimbursement: Key)
    requires v in signers
    ensures var r := MayUndelegate(s, signers, v, d, program, reimbursement);
            if !SessionReadable(s, v, d) then r == Err(InvalidAccountOwner)
            else if !Unused(s, CommitState(d)) then r == Err(Occupied(s, CommitState(d)))
            else if !Unused(s, CommitRecord(d)) then r == Err(Occupied(s, CommitRecord(d)))
            else if DecodeRecord(At(s, Record(d)).data).Err? then r == Err(InvalidAccountData)
            else if DecodeRecord(At(s, Record(d)).data).value.owner != program then r == Err(InvalidAccountOwner)
            else if DecodeMetadata(At(s, Metadata(d)).data).Err? then r == Err(InvalidAccountData)
            else
              var meta := DecodeMetadata(At(s, Metadata(d)).data).value;
              if !meta.isUndelegatable then r == Err(NotUndelegatable)
              else if meta.rentPayer != reimbursement then r == Err(InvalidReimbursementAddress)
              else r.Ok?
  {
    hide MayUndelegate, DecodeRecord, DecodeMetadata;
    if !SessionReadable(s, v, d) {
      Unreadable(s, signers, v, d, program, reimbursement);
    } else {
      Readable(s, signers, v, d, program, reimbursement);
    }
  }

  lemma Unreadable(s: Store, signers: set<Key>, v: Key, d: Key, program: Key, reimbursement: Key)
    requires v in signers && !SessionReadable(s, v, d)
    ensures MayUndelegate(s, signers, v, d, program, reimbursement) == Err(InvalidAccountOwner)
  {
    hide DecodeRecord, DecodeMetadata, Uninitialized;
  }

  lemma Readable(s: Store, signers: set<Key>, v: Key, d: Key, program: Key, reimbursement: Key)
    requires v in signers && SessionReadable(s, v, d)
    ensures var r := MayUndelegate(s, signers, v, d, program, reimbursement);
            var record, meta := DecodeRecord(At(s, Record(d)).data), DecodeMetadata(At(s, Metadata(d)).data);
            if !Unused(s, CommitState(d)) then r == Err(Occupied(s, CommitState(d)))
            else if !Unused(s, CommitRecord(d)) then r == Err(Occupied(s, CommitRecord(d)))
            else if record.Err? then r == Err(InvalidAccountData)
            else if record.value.owner != program then r == Err(InvalidAccountOwner)
            else if meta.Err? then r == Err(InvalidAccountData)
            else if !meta.value.isUndelegatable then r == Err(NotUndelegatable)
            else if meta.value.rentPayer != reimbursement then r == Err(InvalidReimbursementAddress)
            else r.Ok?
  {
    hide DecodeRecord, DecodeMetadata, Uninitialized, Occupied, Unused;
    WhenOccupied(s, CommitState(d));
    WhenOccupied(s, CommitRecord(d));
    var record, meta := DecodeRecord(At(s, Record(d)).data), DecodeMetadata(At(s, Metadata(d)).data);
    RecordError(At(s, Record(d)).data);
    MetadataError(At(s, Metadata(d)).data);
  }

  lemma RecordError(data: Bytes)
    ensures DecodeRecord(data).Err? ==> DecodeRecord(data) == Err(InvalidAccountData)
  {
    hide TakeRecord;
  }

  lemma MetadataError(data: Bytes)
    ensures DecodeMetadata(data).Err? ==> DecodeMetadata(data) == Err(InvalidAccountData)
  {
    hide TakeMetadata;
  }

  lemma WhenOccupied(s: Store, k: Key)
    ensures Uninitialized(s, k) == if Unused(s, k) then Pass else Fail(Occupied(s, k))
  {}

  // ---- Vaults, configs and escrow accounts ----

  /** Creating a vault that cannot be created. */
  lemma VaultCreationRefused(c: Chain, s: Store, vault: Key, payer: Key)
    requires Total(s) < U64_LIMIT && vault != payer && Unused(s, vault)
    ensures var r := CreatePda(c.rent, s, vault, Dlp, 8, payer);
            r.Err? ==> r == Err(Insolvent(At(s, payer), Lacks(Lamports(s, vault), c.rent(8))))
  {
    hide Total, CreatePda, Pays, Insolvent, Lacks, Unused, Rest;
    CreatesExactly(c.rent, s, vault, Dlp, 8, payer);
    CreationRefused(c.rent, s, vault, Dlp, 8, payer);
  }

  /** Opening and closing vaults. */
  lemma VaultRefusals(c: Chain, s: Store, signers: set<Key>, payer: Key, admin: Key, identity: Key)
    requires Total(s) < U64_LIMIT && !ProgramAddress(payer)
    ensures var r := Handle(c, s, signers, InitFeesVault(payer));
            if payer !in signers then r == Err(MissingRequiredSignature)
            else if !Unused(s, FeesVault) then r == Err(Occupied(s, FeesVault))
            else r.Err? ==> r == Err(Insolvent(At(s, payer), Lacks(Lamports(s, FeesVault), c.rent(8))))
    ensures var r, vault := Handle(c, s, signers, InitValidatorVault(payer, admin, identity)), ValidatorVault(identity);
            if payer !in signers || admin !in signers then r == Err(MissingRequiredSignature)
            else if c.admin != Some(admin) then r == Err(Unauthorized)
            else if !Unused(s, vault) then r == Err(Occupied(s, vault))
            else r.Err? ==> r == Err(Insolvent(At(s, payer), Lacks(Lamports(s, vault), c.rent(8))))
    ensures var r := Handle(c, s, signers, CloseValidatorVault(payer, admin, identity));
            if payer !in signers || admin !in signers then r == Err(MissingRequiredSignature)
            else if c.admin != Some(admin) then r == Err(Unauthorized)
            else !OfProgram(s, ValidatorVault(identity)) ==> r == Err(InvalidAccountOwner)
  {
    hide Total, CreatePda, ClosePda, Uninitialized, Unused, Occupied, Insolvent, Lacks;
    var vault := ValidatorVault(identity);
    WhenOccupied(s, FeesVault);
    WhenOccupied(s, vault);
    if Unused(s, FeesVault) {
      VaultCreationRefused(c, s, FeesVault, payer);
    }
    if Unused(s, vault) {
      VaultCreationRefused(c, s, vault, payer);
    }
  }

  /** Claims. */
  lemma ClaimRefusals(c: Chain, s: Store, signers: set<Key>, v: Key, claim: Option<u64>, admin: Key)
    ensures var r := Handle(c, s, signers, ClaimValidatorFees(v, claim));
            && (v !in signers ==> r == Err(MissingRequiredSignature))
            && (v in signers && (!OfProgram(s, FeesVault) || !OfProgram(s, ValidatorVault(v))) ==>
                  r == Err(InvalidAccountOwner))
    ensures var r := Handle(c, s, signers, ClaimProtocolFees(admin));
            if admin !in signers then r == Err(MissingRequiredSignature)
            else if !OfProgram(s, FeesVault) then r == Err(InvalidAccountOwner)
            else if c.admin != Some(admin) then r == Err(Unauthorized)
            else Lamports(s, FeesVault) < c.rent(8) ==> r == Err(InsufficientFunds)
  {
    hide MoveFees;
  }

  /** A change of a config: by nobody entitled to it, or to a set that cannot be counted. */
  lemma WhitelistRefusals(c: Chain, s: Store, signers: set<Key>, authority: Key, validator: Key, program: Key,
                          insert: bool, stale: Bytes)
    ensures var r := Handle(c, s, signers, Whitelist(authority, validator, program, insert, stale));
            if authority !in signers then r == Err(MissingRequiredSignature)
            else c.admin.None?
                 || (c.admin.value != authority && c.upgradeAuthority(program) != Some(authority)) ==>
                   r == Err(Unauthorized)
    ensures var r := Handle(c, s, signers, Whitelist(authority, validator, program, insert, stale));
            authority in signers && c.admin == Some(authority) && Approved(s, program).Some?
            && |After(s, program, validator, insert)| >= 0x1_0000_0000 ==>
              r == Err(InvalidAccountData)
  {
    hide LoadConfig, StoreConfig, Approved;
    if Approved(s, program).Some? {
      LoadsApproved(c, s, authority, program);
      StoreTooMany(c, s, authority, program, After(s, program, validator, insert), stale);
    }
  }

  lemma LoadsApproved(c: Chain, s: Store, authority: Key, program: Key)
    requires Approved(s, program).Some?
    ensures LoadConfig(c, s, authority, program) == Ok((s, Approved(s, program).value))
  {
    hide DecodeConfig;
  }

  lemma StoreTooMany(c: Chain, s: Store, authority: Key, program: Key, approved: set<Key>, stale: Bytes)
    ensures |approved| >= 0x1_0000_0000 ==>
              StoreConfig(c, s, authority, program, approved, stale) == Err(InvalidAccountData)
  {}

  /** Escrow accounts. */
  lemma EscrowRefusals(c: Chain, s: Store, signers: set<Key>, payer: Key, of: Key, index: byte, amount: u64,
                       args: DelegateArgs)
    ensures payer !in signers ==>
              Handle(c, s, signers, TopUpEscrow(payer, of, index, amount)) == Err(MissingRequiredSignature)
    ensures var r, escrow := Handle(c, s, signers, DelegateEscrow(payer, of, index, args)), Escrow(of, index);
            if payer !in signers || of !in signers then r == Err(MissingRequiredSignature)
            else At(s, escrow).owner != System && At(s, escrow).owner != Dlp ==> r == Err(ModifiedProgramId)
  {
    hide HandleDelegate, CreatePda, Transfer;
  }

  lemma CloseRefusals(c: Chain, s: Store, signers: set<Key>, payer: Key, index: byte)
    requires !ProgramAddress(payer) && Total(s) < U64_LIMIT
    ensures var r, escrow := Handle(c, s, signers, CloseEscrow(payer, index)), Escrow(payer, index);
            if payer !in signers then r == Err(MissingRequiredSignature)
            else if At(s, escrow).owner != System then r == Err(InvalidAccountOwner)
            else r.Err? ==> r == Err(InvalidArgument)
  {
    hide Total, Transfer;
    var escrow := Escrow(payer, index);
    assert payer < escrow;
    TransferRefused(s, escrow, payer, Lamports(s, escrow));
    TransferPays(s, escrow, payer, Lamports(s, escrow));
  }
}
