/** What the invariant means for the handlers: which guards can never fail, and exactly when an instruction succeeds. */
module Guarantees {
  import opened Outcomes
  import opened Octets
  import opened Layouts
  import opened Store
  import opened Fees
  import opened Handlers
  import opened Sessions
  import opened Invariants
  import opened SessionEffects
  import opened ConfigEffects

  /** The accounts of a session come in pairs, and a pending commit belongs to a live session and names its account:
      the mixed cases the handlers guard against do not occur. */
  lemma PairedAccounts(c: Chain, s: Store, d: Key)
    requires Inv(c, s)
    ensures Fresh(s, Record(d)) <==> Fresh(s, Metadata(d))
    ensures Fresh(s, CommitState(d)) <==> Fresh(s, CommitRecord(d))
    ensures Owned(s, CommitState(d)) <==> Owned(s, CommitRecord(d))
    ensures Owned(s, CommitState(d)) ==>
              && Owned(s, Record(d)) && Owned(s, Metadata(d)) && Owned(s, d)
              && DecodeCommitRecord(At(s, CommitRecord(d)).data).Ok? && CommitOf(s, d).account == d
    ensures Fresh(s, UndelegateBuffer(d))
  {
    hide DecodeRecord, EncodeRecord, DecodeMetadata, EncodeMetadata, DecodeCommitRecord;
    assert SessionOk(s, d);
  }

  /** Every live account holds at least its recorded balance, and a pending commit is covered by the recorded balance
      and what its commit state account holds. */
  lemma Collateralized(c: Chain, s: Store, d: Key)
    requires Inv(c, s) && SessionOk(s, d) && Abs(s, d).Live?
    ensures var x := Abs(s, d);
            && x.recorded <= Lamports(s, d)
            && (x.pending.Some? ==> x.pending.value.lamports <= Lamports(s, CommitState(d)) + x.recorded)
  {
    hide RecordOk, MetadataOk;
  }

  /** The guard of commit against a delegated account that lost lamports, and its parsers and in-place write, never
      fail. */
  lemma CommitGuardsHold(c: Chain, s: Store, signers: set<Key>, v: Key, d: Key, args: CommitArgs)
    requires Inv(c, s) && !ProgramAddress(v)
    ensures HandleCommit(c, s, signers, v, d, args) != Err(InvalidDelegatedState)
    ensures HandleCommit(c, s, signers, v, d, args) != Err(InvalidAccountData)
    ensures HandleCommit(c, s, signers, v, d, args) != Err(WriteZero)
  {
    hide ProgramAddress, Delegatable, DecodeRecord, EncodeRecord, DecodeMetadata, EncodeMetadata, PostCollateral,
         Admitted, StoreCommit, Overwrite, PendingOk, PaymentError, VaultOk, ConfigOk;
    assert SessionOk(s, d);
    PaymentErrors();
    if Owned(s, Record(d)) && Owned(s, Metadata(d)) {
      var m := MetadataOf(s, d);
      MetadataRewrite(m, m.lastUpdateExternalSlot, args.allowUndelegation);
      var s1 := SetData(s, Metadata(d), EncodeMetadata(m.(isUndelegatable := args.allowUndelegation)));
      RecordUntouched(s, s1, d);
      var r := RecordOf(s, d);
      assert ConfigOk(c, s, r.owner);
      GateErrors(c, s, v, d, args, s1, r);
    }
  }

  lemma RecordUntouched(s: Store, s1: Store, d: Key)
    requires Delegatable(d) && s1 == SetData(s, Metadata(d), At(s1, Metadata(d)).data)
    ensures At(s1, Record(d)) == At(s, Record(d)) && Lamports(s1, d) == Lamports(s, d)
    ensures forall p {:trigger Config(p)} :: At(s1, Config(p)) == At(s, Config(p))
  {}

  /** The errors a payment or a creation can give. */
  predicate PaymentError(e: Error) {
    e.InvalidArgument? || e.InsufficientFunds? || e.ExternalLamportSpend? || e.Overflow?
        || e.AccountAlreadyInitialized? || e.InvalidAccountOwner?
  }

  lemma TransferErrors(s: Store, from: Key, to: Key, amount: u64)
    ensures Transfer(s, from, to, amount).Err? ==> PaymentError(Transfer(s, from, to, amount).error)
  {}

  lemma CreationErrors(rent: nat -> u64, s: Store, target: Key, space: nat, payer: Key)
    ensures CreatePda(rent, s, target, Dlp, space, payer).Err? ==>
            PaymentError(CreatePda(rent, s, target, Dlp, space, payer).error)
  {
    hide Zeroes, Transfer, PaymentError;
    PaymentErrors();
    var missing := Shortfall(Lamports(s, target), rent(space));
    if Lamports(s, target) == 0 {
      if Fresh(s, target) {
        TransferErrors(AllocateAndAssign(s, target, space, Dlp).value, payer, target, missing);
      }
    } else if missing > 0 {
      TransferErrors(s, payer, target, missing);
    }
  }

  lemma StoreErrors(c: Chain, s: Store, v: Key, d: Key, args: CommitArgs)
    ensures StoreCommit(c, s, v, d, args).Err? ==> PaymentError(StoreCommit(c, s, v, d, args).error)
  {
    hide CreatePda, EncodeCommitRecord, PaymentError;
    CreationErrors(c.rent, s, CommitState(d), |args.state|, v);
    var created := CreatePda(c.rent, s, CommitState(d), Dlp, |args.state|, v);
    assert PaymentError(InvalidAccountOwner) && PaymentError(AccountAlreadyInitialized) by { PaymentErrors(); }
    if created.Ok? {
      CreationErrors(c.rent, created.value, CommitRecord(d), COMMIT_RECORD_SIZE, v);
    }
  }

  lemma PaymentErrors()
    ensures PaymentError(InvalidAccountOwner) && PaymentError(AccountAlreadyInitialized)
    ensures !PaymentError(InvalidDelegatedState) && !PaymentError(InvalidAccountData) && !PaymentError(WriteZero)
    ensures !PaymentError(AlreadyUndelegated) && !PaymentError(NotUndelegatable) && !PaymentError(InvalidSeeds)
  {}

  /** The steps after the guards fail with errors of their own. */
  lemma GateErrors(c: Chain, s: Store, v: Key, d: Key, args: CommitArgs, s1: Store, r: DelegationRecord)
    requires ConfigOk(c, s, r.owner) && At(s1, Config(r.owner)) == At(s, Config(r.owner))
    requires !ProgramAddress(v)
    ensures var posted := PostCollateral(s1, v, d, r.lamports, args.lamports);
            && (posted.Err? ==> PaymentError(posted.error))
            && (posted.Ok? ==>
                  && Admitted(posted.value, r.owner, v) in {Pass, Fail(InvalidWhitelistProgramConfig)}
                  && (StoreCommit(c, posted.value, v, d, args).Err? ==>
                      PaymentError(StoreCommit(c, posted.value, v, d, args).error)))
  {
    hide EncodeConfig, DecodeConfig, StoreCommit;
    var posted := PostCollateral(s1, v, d, r.lamports, args.lamports);
    if posted.Ok? {
      StoreErrors(c, posted.value, v, d, args);
    }
  }

  /** Exactly when finalize succeeds: for a signing validator with a vault, on a live session, unless another validator
      committed. Neither the settlement nor the closes can fail, as long as all lamports fit in 64 bits. */
  lemma FinalizeSucceedsIff(c: Chain, s: Store, signers: set<Key>, v: Key, d: Key)
    requires SessionOk(s, d) && !ProgramAddress(v) && Total(s) < U64_LIMIT
    ensures HandleFinalize(c, s, signers, v, d).Ok? <==>
              && v in signers && Abs(s, d).Live? && Owned(s, ValidatorVault(v))
              && (Abs(s, d).pending.Some? ==> Abs(s, d).pending.value.identity == v)
  {
    hide Total, ProgramAddress, Delegatable, DecodeRecord, EncodeRecord, DecodeMetadata, EncodeMetadata,
         DecodeCommitRecord, ApplyCommit, Encodable;
    if v in signers && Abs(s, d).Live? && Owned(s, ValidatorVault(v)) && Abs(s, d).pending.Some? {
      ApplyCommitSucceedsIff(s, v, d, RecordOf(s, d), MetadataOf(s, d), CommitOf(s, d));
    }
  }

  lemma ApplyCommitSucceedsIff(s: Store, v: Key, d: Key, r: DelegationRecord, m: DelegationMetadata,
                               p: CommitRecordData)
    requires !ProgramAddress(v) && Delegatable(d) && Owned(s, CommitState(d)) && Owned(s, CommitRecord(d))
    requires At(s, Record(d)).data == EncodeRecord(r) && DecodeRecord(At(s, Record(d)).data) == Ok(r)
    requires At(s, Metadata(d)).data == EncodeMetadata(m) && DecodeMetadata(At(s, Metadata(d)).data) == Ok(m)
    requires Encodable(m.seeds) && DecodeCommitRecord(At(s, CommitRecord(d)).data) == Ok(p) && p.account == d
    requires r.lamports <= Lamports(s, d) && p.lamports <= Lamports(s, CommitState(d)) + r.lamports
    requires Total(s) < U64_LIMIT
    ensures ApplyCommit(s, v, d).Ok? <==> p.identity == v
  {
    hide Total, Frame, ProgramAddress, Delegatable, DecodeRecord, EncodeRecord, DecodeMetadata, EncodeMetadata,
         DecodeCommitRecord, Encodable, Settle, WriteFinalized, ClosePda, SessionKeys;
    if p.identity == v {
      SessionAddresses(d, v);
      SettleSucceeds(s, d, v, r.lamports, p.lamports);
      var s1 := Settle(s, d, v, r.lamports, p.lamports).value;
      SettleEffect(s, d, v, r.lamports, p.lamports, s1);
      var m' := m.(lastUpdateExternalSlot := p.slot);
      WriteFinalizedSucceeds(s1, d, r, m, p.slot);
      var s2 := WriteFinalized(s1, d, m').value;
      WriteFinalizedEffect(s1, d, r, m, p.slot, s2);
      ClosePdaSucceeds(s2, CommitState(d), v);
      var s3 := ClosePda(s2, CommitState(d), v).value;
      ClosePdaEffect(s2, CommitState(d), v, s3);
      ClosePdaSucceeds(s3, CommitRecord(d), v);
    }
  }

  lemma WriteFinalizedSucceeds(s: Store, d: Key, r: DelegationRecord, m: DelegationMetadata, slot: u64)
    requires At(s, Record(d)).data == EncodeRecord(r) && At(s, Metadata(d)).data == EncodeMetadata(m)
            && Encodable(m.seeds)
    ensures WriteFinalized(s, d, m.(lastUpdateExternalSlot := slot)).Ok?
  {
    MetadataRewrite(m, slot, m.isUndelegatable);
    hide EncodeRecord, EncodeMetadata, Overwrite, DecodeMetadata;
  }

  lemma ClosePdaSucceeds(s: Store, target: Key, destination: Key)
    requires target != destination && Total(s) < U64_LIMIT
    ensures ClosePda(s, target, destination).Ok?
  {
    hide Total;
    TotalCoversTwo(s, target, destination);
  }

  // ---- Refusals ----

  /** A commit is refused as already undelegated exactly when it is well-formed, not stale, and an earlier commit of the
      session allowed undelegation. */
  lemma CommitRefused(c: Chain, s: Store, signers: set<Key>, v: Key, d: Key, args: CommitArgs)
    requires Inv(c, s) && SessionOk(s, d) && !ProgramAddress(v)
    ensures HandleCommit(c, s, signers, v, d, args) == Err(AlreadyUndelegated) <==>
              && v in signers && Abs(s, d).Live? && Owned(s, ValidatorVault(v))
              && Abs(s, d).slot <= args.slot && Abs(s, d).flag
  {
    hide ProgramAddress, Delegatable, DecodeRecord, EncodeRecord, DecodeMetadata, EncodeMetadata, PostCollateral,
         Admitted, StoreCommit, Overwrite, PendingOk, PaymentError, VaultOk, ConfigOk;
    PaymentErrors();
    if Owned(s, Record(d)) && Owned(s, Metadata(d)) {
      var m := MetadataOf(s, d);
      MetadataRewrite(m, m.lastUpdateExternalSlot, args.allowUndelegation);
      var s1 := SetData(s, Metadata(d), EncodeMetadata(m.(isUndelegatable := args.allowUndelegation)));
      RecordUntouched(s, s1, d);
      var r := RecordOf(s, d);
      assert ConfigOk(c, s, r.owner);
      GateErrors(c, s, v, d, args, s1, r);
    }
  }

  /** Finalize is refused for the wrong validator exactly when another one made the pending commit. */
  lemma FinalizeRefused(c: Chain, s: Store, signers: set<Key>, v: Key, d: Key)
    requires SessionOk(s, d) && !ProgramAddress(v) && Total(s) < U64_LIMIT
    ensures HandleFinalize(c, s, signers, v, d) == Err(InvalidReimbursementAccount) <==>
              && v in signers && Abs(s, d).Live? && Owned(s, ValidatorVault(v))
              && Abs(s, d).pending.Some? && Abs(s, d).pending.value.identity != v
  {
    hide Total, ProgramAddress, Delegatable, DecodeRecord, EncodeRecord, DecodeMetadata, EncodeMetadata,
         DecodeCommitRecord, Settle, WriteFinalized, ClosePda, Encodable;
    FinalizeSucceedsIff(c, s, signers, v, d);
  }

  /** Undelegate is refused as not undelegatable exactly when everything else it checks first is in order and no commit
      of the session allowed it; none of the steps after the checks gives that error. */
  lemma UndelegateRefused(c: Chain, s: Store, signers: set<Key>, v: Key, d: Key, program: Key, reimbursement: Key,
                          reply: CpiReply)
    requires SessionOk(s, d)
    ensures HandleUndelegate(c, s, signers, v, d, program, reimbursement, reply) == Err(NotUndelegatable) <==>
              && v in signers && Abs(s, d).Live? && Owned(s, FeesVault) && Owned(s, ValidatorVault(v))
              && Abs(s, d).pending.None? && Abs(s, d).owner == program && !Abs(s, d).flag
  {
    hide ProgramAddress, Delegatable, DecodeRecord, EncodeRecord, DecodeMetadata, EncodeMetadata, DecodeCommitRecord,
         Encodable, Cleanup, ReturnData;
    CleanupErrors(s[d := At(s, d).(owner := program)], d, reimbursement, v);
    ReturnErrors(c, s, v, d, Answer(program, reply));
    var returned := ReturnData(c, s, v, d, Answer(program, reply));
    if returned.Ok? {
      CleanupErrors(returned.value, d, reimbursement, v);
    }
  }

  lemma {:induction false} CreditErrors(s: Store, keys: seq<Key>, amounts: seq<int>)
    requires |keys| == |amounts|
    ensures CreditAll(s, keys, amounts).Err? ==> CreditAll(s, keys, amounts) == Err(InsufficientFunds)
  {
    if keys != [] {
      CreditErrors(s, keys[..|keys| - 1], amounts[..|keys| - 1]);
    }
  }

  lemma CloseErrors(s: Store, target: Key, destination: Key, vaults: seq<Key>, percentage: byte)
    ensures ClosePdaWithFees(s, target, destination, vaults, percentage) != Err(NotUndelegatable)
  {
    hide CreditAll, Cumulative, Shares;
    CreditErrors(s, vaults, Shares(Lamports(s, target), percentage, |vaults|));
  }

  lemma CleanupErrors(s: Store, d: Key, reimbursement: Key, v: Key)
    ensures Cleanup(s, d, reimbursement, v) != Err(NotUndelegatable)
  {
    hide ClosePdaWithFees;
    var vaults := [ValidatorVault(v), FeesVault];
    CloseErrors(s, Record(d), reimbursement, vaults, RENT_FEES_PERCENTAGE);
    var closed := ClosePdaWithFees(s, Record(d), reimbursement, vaults, RENT_FEES_PERCENTAGE);
    if closed.Ok? {
      CloseErrors(closed.value, Metadata(d), reimbursement, vaults, RENT_FEES_PERCENTAGE);
    }
  }

  lemma CloseAndCallErrors(s: Store, v: Key, d: Key, buffer: Key, reply: CpiReply)
    ensures ClosePda(s, d, v).Err? ==> ClosePda(s, d, v) == Err(Panic)
    ensures CallOwnerProgram(s, d, buffer, v, reply).Err? ==> CallOwnerProgram(s, d, buffer, v, reply) == Err(CpiFailed)
  {
    hide RuntimeAllows;
  }

  lemma ReopenErrors(c: Chain, s: Store, v: Key, d: Key, reply: CpiReply)
    ensures ReopenByCpi(c, s, v, d, reply) != Err(NotUndelegatable)
  {
    hide ClosePda, CallOwnerProgram, Transfer, PaymentError;
    PaymentErrors();
    CloseAndCallErrors(s, v, d, UndelegateBuffer(d), reply);
    var closed := ClosePda(s, d, v);
    if closed.Ok? {
      CloseAndCallErrors(closed.value, v, d, UndelegateBuffer(d), reply);
      var called := CallOwnerProgram(closed.value, d, UndelegateBuffer(d), v, reply);
      if called.Ok? && c.rent(|At(called.value, d).data|) <= Lamports(s, d) {
        TransferErrors(called.value, v, d, Lamports(s, d) - c.rent(|At(called.value, d).data|));
      }
    }
  }

  lemma ReturnErrors(c: Chain, s: Store, v: Key, d: Key, reply: CpiReply)
    ensures ReturnData(c, s, v, d, reply) != Err(NotUndelegatable)
  {
    hide CreatePda, ReopenByCpi, PaymentError, ClosePda;
    PaymentErrors();
    var buffer, data := UndelegateBuffer(d), At(s, d).data;
    CreationErrors(c.rent, s, buffer, |data|, v);
    var created := CreatePda(c.rent, s, buffer, Dlp, |data|, v);
    if created.Ok? {
      var s2 := SetData(created.value, buffer, data);
      ReopenErrors(c, s2, v, d, reply);
      var reopened := ReopenByCpi(c, s2, v, d, reply);
      if reopened.Ok? {
        CloseAndCallErrors(reopened.value, v, buffer, buffer, reply);
      }
    }
  }

  // ---- Who can pay ----

  /** An account that can always pay: of the system program, without data, at an address the program does not derive. */
  predicate Wallet(s: Store, k: Key) {
    !ProgramAddress(k) && At(s, k).owner == System && At(s, k).data == []
  }

  /** What paying a cost takes of an account: the balance; an account of the system program, if anything is due; and no
      data, if anything is due or a transfer is made all the same, as it is when an account is created from nothing. */
  predicate Pays(a: Account, cost: nat, transfers: bool) {
    && cost <= a.lamports
    && (cost > 0 ==> a.owner == System)
    && (cost > 0 || transfers ==> a.data == [])
  }

  /** Two payments, one after the other, are one. */
  lemma PaysTwice(a: Account, b: Account, first: nat, also: bool, second: nat, then': bool)
    requires Pays(a, first, also) ==> Holds(b, a.owner, a.lamports - first, a.data)
    ensures Pays(a, first, also) && Pays(b, second, then') <==> Pays(a, first + second, also || then')
  {}

  lemma PaysPart(a: Account, first: nat, also: bool, second: nat, then': bool)
    ensures Pays(a, first + second, also || then') ==> Pays(a, first, also)
  {}

  lemma NothingIsPaid(a: Account)
    ensures Pays(a, 0, false)
  {}

  /** A transfer succeeds exactly when the source can pay. */
  lemma TransferSucceedsIff(s: Store, from: Key, to: Key, amount: u64)
    requires from != to && Total(s) < U64_LIMIT
    ensures Transfer(s, from, to, amount).Ok? <==> Pays(At(s, from), amount, true)
  {
    hide Total;
    TotalCoversTwo(s, from, to);
  }

  /** Creating succeeds exactly when the account is unused and the payer can pay what is missing of the rent. */
  lemma CreateSucceedsIff(rent: nat -> u64, s: Store, target: Key, owner: Key, space: nat, payer: Key)
    requires target != payer && Total(s) < U64_LIMIT
    ensures CreatePda(rent, s, target, owner, space, payer).Ok? <==>
              && Fresh(s, target)
              && Pays(At(s, payer), Shortfall(Lamports(s, target), rent(space)), Lamports(s, target) == 0)
  {
    hide Total, ProgramAddress, Zeroes, Transfer, Pays;
    if Fresh(s, target) && Lamports(s, target) == 0 {
      var s1 := AllocateAndAssign(s, target, space, owner).value;
      AllocateEffect(s, target, space, owner, s1);
      TransferSucceedsIff(s1, payer, target, rent(space));
    } else {
      TransferSucceedsIff(s, payer, target, Shortfall(Lamports(s, target), rent(space)));
      TransfersOrNot(At(s, payer), Shortfall(Lamports(s, target), rent(space)));
      var missing := Shortfall(Lamports(s, target), rent(space));
      if missing > 0 && Transfer(s, payer, target, missing).Ok? {
        TransferEffect(s, payer, target, missing, Transfer(s, payer, target, missing).value);
      }
    }
  }

  lemma TransfersOrNot(a: Account, cost: nat)
    ensures cost > 0 ==> (Pays(a, cost, true) <==> Pays(a, cost, false))
    ensures cost == 0 ==> Pays(a, cost, false)
  {}

  // ---- When a commit succeeds ----

  /** What a commit costs its validator: the collateral, then what the two accounts lack to reach their rent. */
  function CommitCost(c: Chain, s: Store, d: Key, recorded: nat, args: CommitArgs): nat {
    var collateral := Above(args.lamports, recorded);
    var held := Lamports(s, CommitState(d)) + collateral;
    collateral
    + (if held < c.rent(|args.state|) then c.rent(|args.state|) - held else 0)
    + Shortfall(Lamports(s, CommitRecord(d)), c.rent(88))
  }

  /** One of the two accounts of a commit is created from nothing. */
  predicate CreatesFromNothing(s: Store, first: Key, second: Key) {
    Lamports(s, first) == 0 || Lamports(s, second) == 0
  }

  lemma StoreCommitSucceedsIff(c: Chain, s: Store, v: Key, d: Key, args: CommitArgs)
    requires !ProgramAddress(v) && Total(s) < U64_LIMIT
    ensures StoreCommit(c, s, v, d, args).Ok? <==>
              && Fresh(s, CommitState(d)) && Fresh(s, CommitRecord(d))
              && Pays(At(s, v),
                      Shortfall(Lamports(s, CommitState(d)), c.rent(|args.state|))
                      + Shortfall(Lamports(s, CommitRecord(d)), c.rent(88)),
                      CreatesFromNothing(s, CommitState(d), CommitRecord(d)))
  {
    hide Total, ProgramAddress, CreatePda, Zeroes, EncodeCommitRecord, Frame, Shortfall;
    CommitAddresses(d, v);
    CreateSucceedsIff(c.rent, s, CommitState(d), Dlp, |args.state|, v);
    var created := CreatePda(c.rent, s, CommitState(d), Dlp, |args.state|, v);
    if created.Ok? {
      var s1 := created.value;
      CreatePdaEffect(c.rent, s, CommitState(d), Dlp, |args.state|, v, s1);
      CreateSucceedsIff(c.rent, s1, CommitRecord(d), Dlp, COMMIT_RECORD_SIZE, v);
    }
  }

  lemma CommitAddresses(d: Key, v: Key)
    ensures ProgramAddress(CommitState(d)) && ProgramAddress(CommitRecord(d)) && ProgramAddress(Metadata(d))
  {}

  lemma CollateralSucceedsIff(s: Store, v: Key, d: Key, recorded: u64, committed: u64)
    requires !ProgramAddress(v) && Total(s) < U64_LIMIT
    ensures PostCollateral(s, v, d, recorded, committed).Ok? <==> Pays(At(s, v), Above(committed, recorded), false)
  {
    hide Total, Frame;
    TotalCoversTwo(s, v, CommitState(d));
  }

  lemma CollateralLeaves(s: Store, v: Key, d: Key, recorded: u64, committed: u64, t: Store)
    requires !ProgramAddress(v) && PostCollateral(s, v, d, recorded, committed) == Ok(t)
    ensures Total(t) == Total(s)
    ensures Holds(At(t, v), At(s, v).owner, Lamports(s, v) - Above(committed, recorded), At(s, v).data)
    ensures Lamports(t, CommitState(d)) == Lamports(s, CommitState(d)) + Above(committed, recorded)
    ensures At(t, CommitRecord(d)) == At(s, CommitRecord(d))
    ensures Fresh(t, CommitState(d)) <==> Fresh(s, CommitState(d))
    ensures forall p {:trigger Config(p)} :: At(t, Config(p)) == At(s, Config(p))
  {
    hide Total, Frame;
    if committed > recorded {
      TransferEffect(s, v, CommitState(d), committed - recorded, t);
    }
  }

  /** Exactly when a commit that is not skipped succeeds: undelegation is not allowed yet, nothing is pending, the
      program approves the validator or has no config, and the validator can pay collateral and rent. */
  lemma CommitSucceedsIff(c: Chain, s: Store, signers: set<Key>, v: Key, d: Key, args: CommitArgs)
    requires Inv(c, s) && Total(s) < U64_LIMIT
    requires SessionOk(s, d) && Abs(s, d).Live? && Abs(s, d).slot <= args.slot
    requires v in signers && !ProgramAddress(v) && Owned(s, ValidatorVault(v))
    ensures HandleCommit(c, s, signers, v, d, args).Ok? <==>
              var x, approved := Abs(s, d), Approved(s, Abs(s, d).owner);
              var fromNothing := Lamports(s, CommitState(d)) + Above(args.lamports, x.recorded) == 0
                  || Lamports(s, CommitRecord(d)) == 0;
              && !x.flag && x.pending.None?
              && (approved.None? || v in approved.value)
              && Pays(At(s, v), CommitCost(c, s, d, x.recorded, args), fromNothing)
  {
    hide Total, Frame, ProgramAddress, Delegatable, DecodeRecord, EncodeRecord, DecodeMetadata, EncodeMetadata,
         PostCollateral, Admitted, StoreCommit, Overwrite, PendingOk, VaultOk, ConfigOk, Approved, Shortfall;
    var m, r := MetadataOf(s, d), RecordOf(s, d);
    MetadataRewrite(m, m.lastUpdateExternalSlot, args.allowUndelegation);
    var s1 := SetData(s, Metadata(d), EncodeMetadata(m.(isUndelegatable := args.allowUndelegation)));
    CommitAddresses(d, v);
    RecordUntouched(s, s1, d);
    RewriteEffect(s, Metadata(d), At(s1, Metadata(d)));
    CollateralSucceedsIff(s1, v, d, r.lamports, args.lamports);
    var posted := PostCollateral(s1, v, d, r.lamports, args.lamports);
    assert ConfigOk(c, s, r.owner);
    GateAdmits(c, s, r.owner, v);
    if posted.Ok? {
      CollateralLeaves(s1, v, d, r.lamports, args.lamports, posted.value);
      SameConfigSameGate(s, posted.value, r.owner, v);
      StoreCommitSucceedsIff(c, posted.value, v, d, args);
      ShortfallAfter(c, s, posted.value, d, r.lamports, args);
    }
  }

  lemma SameConfigSameGate(s: Store, t: Store, program: Key, v: Key)
    requires At(t, Config(program)) == At(s, Config(program))
    ensures Admitted(t, program, v) == Admitted(s, program, v)
  {}

  lemma ShortfallAfter(c: Chain, s: Store, t: Store, d: Key, recorded: u64, args: CommitArgs)
    requires Lamports(t, CommitState(d)) == Lamports(s, CommitState(d)) + Above(args.lamports, recorded)
    requires At(t, CommitRecord(d)) == At(s, CommitRecord(d))
    ensures CommitCost(c, s, d, recorded, args)
            == Above(args.lamports, recorded) + Shortfall(Lamports(t, CommitState(d)), c.rent(|args.state|))
               + Shortfall(Lamports(t, CommitRecord(d)), c.rent(88))
  {}

  // ---- When a delegation succeeds ----

  function DelegateCost(c: Chain, s: Store, d: Key, metadataSize: nat): nat {
    Shortfall(Lamports(s, Record(d)), c.rent(96)) + Shortfall(Lamports(s, Metadata(d)), c.rent(metadataSize))
  }

  lemma DelegateGoesThrough(c: Chain, s: Store, signers: set<Key>, payer: Key, d: Key, program: Key, args: DelegateArgs)
    requires !ProgramAddress(payer) && Delegatable(d) && Total(s) < U64_LIMIT
    ensures HandleDelegate(c, s, signers, payer, d, program, args).Ok? <==>
              var staged := At(s, DelegateBuffer(d, program)).data;
              var cost := DelegateCost(c, s, d, |EncodeMetadata(NewMetadata(payer, args))|);
              && payer in signers && d in signers
              && Owned(s, d) && Fresh(s, Record(d)) && Fresh(s, Metadata(d))
              && SeedsMatch(d, program, args.seeds).Pass? && Encodable(args.seeds)
              && Pays(At(s, payer), cost, CreatesFromNothing(s, Record(d), Metadata(d)))
              && (staged == [] || |staged| == |At(s, d).data|)
  {
    hide Total, Frame, ProgramAddress, Delegatable, DelegateBuffer, SeedsMatch, Encodable, EncodeRecord,
         EncodeMetadata, CreatePda, Zeroes, Shortfall, Pays;
    SessionAddresses(d, payer);
    StagingIsDerived(d, program);
    var first := Shortfall(Lamports(s, Record(d)), c.rent(96));
    var bytes := EncodeMetadata(NewMetadata(payer, args));
    var second := Shortfall(Lamports(s, Metadata(d)), c.rent(|bytes|));
    CreateSucceedsIff(c.rent, s, Record(d), Dlp, RECORD_SIZE, payer);
    var created := CreatePda(c.rent, s, Record(d), Dlp, RECORD_SIZE, payer);
    PaysPart(At(s, payer), first, Lamports(s, Record(d)) == 0, second, Lamports(s, Metadata(d)) == 0);
    if created.Ok? && Owned(s, d) {
      var record := EncodeRecord(NewRecord(created.value, d, program, args));
      CreatedAndWritten(c.rent, s, Record(d), Dlp, RECORD_SIZE, payer, created.value, record);
      var s2 := SetData(created.value, Record(d), record);
      PaysTwice(At(s, payer), At(s2, payer), first, Lamports(s, Record(d)) == 0, second, Lamports(s, Metadata(d)) == 0);
      CreateSucceedsIff(c.rent, s2, Metadata(d), Dlp, |bytes|, payer);
      var created2 := CreatePda(c.rent, s2, Metadata(d), Dlp, |bytes|, payer);
      if created2.Ok? {
        CreatedAndWritten(c.rent, s2, Metadata(d), Dlp, |bytes|, payer, created2.value, bytes);
        var s4 := SetData(created2.value, Metadata(d), bytes);
        SameStaging(s, s2, s4, d, program, payer);
      }
    }
  }

  /** Exactly when delegating succeeds: the account is the program's to begin with and signs, its seeds are the right
      ones, it is not delegated yet, the payer signs and can pay, and what the owner staged has the account's length. */
  lemma DelegateSucceedsIff(c: Chain, s: Store, signers: set<Key>, payer: Key, d: Key, program: Key, args: DelegateArgs)
    requires !ProgramAddress(payer) && Delegatable(d) && Total(s) < U64_LIMIT
    ensures HandleDelegate(c, s, signers, payer, d, program, args).Ok? <==>
              var staged := At(s, DelegateBuffer(d, program)).data;
              var cost := DelegateCost(c, s, d, |EncodeMetadata(NewMetadata(payer, args))|);
              && payer in signers && d in signers
              && Owned(s, d) && Fresh(s, Record(d)) && Fresh(s, Metadata(d))
              && BelongsTo(d, program, args.seeds)
              && |args.seeds| < 0x1_0000_0000 && (forall b :: b in args.seeds ==> |b| < 0x1_0000_0000)
              && Pays(At(s, payer), cost, CreatesFromNothing(s, Record(d), Metadata(d)))
              && (staged == [] || |staged| == |At(s, d).data|)
  {
    hide HandleDelegate, Total, ProgramAddress, Delegatable, DelegateBuffer, Derivation, Flat, EncodeMetadata, Pays,
         DelegateCost, Owned, Fresh;
    DelegateGoesThrough(c, s, signers, payer, d, program, args);
  }

  /** Creating the two accounts leaves the staged bytes and the account's own data alone. */
  lemma SameStaging(s: Store, s2: Store, s4: Store, d: Key, program: Key, payer: Key)
    requires DelegateBuffer(d, program).Derived? && d != Record(d) && d != Metadata(d)
    requires forall k {:trigger At(s2, k)} :: k != Record(d) && k != payer ==> At(s2, k) == At(s, k)
    requires forall k {:trigger At(s4, k)} :: k != Metadata(d) && k != payer ==> At(s4, k) == At(s2, k)
    requires At(s2, payer).data == At(s, payer).data && At(s4, payer).data == At(s2, payer).data
    ensures At(s4, DelegateBuffer(d, program)).data == At(s, DelegateBuffer(d, program)).data
    ensures At(s4, d).data == At(s, d).data
  {
    hide DelegateBuffer;
    var b := DelegateBuffer(d, program);
    assert b != payer ==> At(s4, b) == At(s2, b) == At(s, b);
    assert d != payer ==> At(s4, d) == At(s2, d) == At(s, d);
  }

  /** A delegation is refused for its seeds exactly when the account is the program's but belongs to another program, or
      to other seeds. */
  lemma DelegateRefused(c: Chain, s: Store, signers: set<Key>, payer: Key, d: Key, program: Key, args: DelegateArgs)
    ensures HandleDelegate(c, s, signers, payer, d, program, args) == Err(InvalidSeeds) <==>
              Owned(s, d) && !BelongsTo(d, program, args.seeds)
  {
    hide CreatePda, Derivation, Flat, Encodable, DelegateBuffer, EncodeRecord, EncodeMetadata, PaymentError;
    PaymentErrors();
    CreationErrors(c.rent, s, Record(d), RECORD_SIZE, payer);
    var created := CreatePda(c.rent, s, Record(d), Dlp, RECORD_SIZE, payer);
    if created.Ok? {
      var s2 := SetData(created.value, Record(d), EncodeRecord(NewRecord(created.value, d, program, args)));
      CreationErrors(c.rent, s2, Metadata(d), |EncodeMetadata(NewMetadata(payer, args))|, payer);
    }
  }

  // ---- Who may do what ----

  /** The signatures an instruction cannot do without. */
  function Signatures(ix: Instruction): set<Key> {
    match ix
    case Delegate(payer, d, _, _) => {payer, d}
    case Commit(v, _, _) => {v}
    case CommitFromBuffer(v, _, _, _) => {v}
    case Finalize(v, _) => {v}
    case Undelegate(v, _, _, _, _) => {v}
    case InitFeesVault(payer) => {payer}
    case InitValidatorVault(payer, admin, _) => {payer, admin}
    case CloseValidatorVault(payer, admin, _) => {payer, admin}
    case ClaimValidatorFees(v, _) => {v}
    case ClaimProtocolFees(admin) => {admin}
    case Whitelist(authority, _, _, _, _) => {authority}
    case TopUpEscrow(payer, _, _, _) => {payer}
    case DelegateEscrow(payer, of, _, _) => {payer, of}
    case CloseEscrow(payer, _) => {payer}
  }

  /** The program's upgrade authority runs the vaults; a program's config is its own or its upgrade authority's
      affair. */
  predicate Authorized(c: Chain, ix: Instruction) {
    match ix
    case InitValidatorVault(_, admin, _) => c.admin == Some(admin)
    case CloseValidatorVault(_, admin, _) => c.admin == Some(admin)
    case ClaimProtocolFees(admin) => c.admin == Some(admin)
    case Whitelist(authority, _, program, _, _) =>
      c.admin.Some? && (c.admin == Some(authority) || c.upgradeAuthority(program) == Some(authority))
    case _ => true
  }

  /** No instruction takes effect without its signatures and its authority; only validators with a vault act on
      sessions. */
  lemma SuccessIsAuthorized(c: Chain, s: Store, signers: set<Key>, ix: Instruction)
    requires Succeeds(c, s, signers, ix)
    ensures Signatures(ix) <= signers && Authorized(c, ix)
    ensures ix.Commit? || ix.CommitFromBuffer? || ix.Finalize? || ix.Undelegate? ==>
            Owned(s, ValidatorVault(ix.validator))
  {
    hide CreatePda, ClosePda, Cleanup, ReturnData, ApplyCommit, StoreCommit, PostCollateral, Admitted, Overwrite,
         SeedsMatch, DelegateBuffer, Encodable, DecodeMetadata, DecodeRecord, EncodeMetadata, EncodeRecord,
         LoadConfig, StoreConfig, Transfer, Credit, HandleDelegateEscrow;
    match ix
    case DelegateEscrow(payer, of, index, args) => EscrowSigned(c, s, signers, payer, of, index, args);
    case _ =>
  }

  lemma EscrowSigned(c: Chain, s: Store, signers: set<Key>, payer: Key, of: Key, index: byte, args: DelegateArgs)
    requires HandleDelegateEscrow(c, s, signers, payer, of, index, args).Ok?
    ensures payer in signers && of in signers
  {
    hide HandleDelegate, EscrowSeeds;
  }
}
