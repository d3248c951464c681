/** An account that is not locked can be handed back: a solvent, approved validator needs at most four instructions. */
module Progress {
  import opened Outcomes
  import opened Octets
  import opened Layouts
  import opened Store
  import opened Fees
  import opened Handlers
  import opened Sessions
  import opened Invariants
  import opened SessionEffects
  import opened UndelegateEffects
  import opened ConfigEffects
  import opened Runs
  import opened Guarantees
  import opened Locks

  // ---- Closing with fees ----

  lemma CloseWithFeesSucceeds(s: Store, target: Key, destination: Key, v: Key, f: Key)
    requires target !in {destination, v, f} && destination !in {v, f} && v != f
    requires Total(s) < U64_LIMIT / 10
    ensures ClosePdaWithFees(s, target, destination, [v, f], RENT_FEES_PERCENTAGE).Ok?
  {
    hide Total, Frame, CreditAll, CreditOrFail, Cumulative, Shares;
    TotalCoversTwo(s, target, destination);
    TotalCoversTwo(s, target, v);
    TotalCoversTwo(s, target, f);
    var balance := Lamports(s, target);
    var shares := Shares(balance, RENT_FEES_PERCENTAGE, 2);
    SharesTelescope(balance, RENT_FEES_PERCENTAGE, 2);
    TwoShares(shares);
    CumulativeDecreases(balance, RENT_FEES_PERCENTAGE, 0);
    Credited(s, v, shares[0]);
    var s1 := CreditOrFail(s, v, shares[0]).value;
    CreditOrFailEffect(s, v, shares[0], s1);
    CreditTwo(s, v, f, shares, s1);
    Credited(s1, f, shares[1]);
    var s2 := CreditOrFail(s1, f, shares[1]).value;
    CreditOrFailEffect(s1, f, shares[1], s2);
    Credited(s2, destination, balance - Cumulative(balance, RENT_FEES_PERCENTAGE, 0));
  }

  lemma TwoShares(shares: seq<int>)
    requires |shares| == 2
    ensures Sum(shares) == shares[0] + shares[1]
  {
    assert shares[..1][..0] == [];
    assert Sum(shares[..1]) == shares[0];
  }

  lemma Credited(s: Store, k: Key, amount: int)
    requires 0 <= Lamports(s, k) + amount < U64_LIMIT
    ensures CreditOrFail(s, k, amount).Ok?
  {}

  lemma CleanupSucceeds(s: Store, d: Key, reimbursement: Key, v: Key)
    requires !ProgramAddress(reimbursement) && Delegatable(d) && Total(s) < U64_LIMIT / 10
    ensures Cleanup(s, d, reimbursement, v).Ok?
  {
    hide Total, ProgramAddress, Delegatable, ClosePdaWithFees, Frame;
    SessionAddresses(d, v);
    var vaults := [ValidatorVault(v), FeesVault];
    CloseWithFeesSucceeds(s, Record(d), reimbursement, ValidatorVault(v), FeesVault);
    var s1 := ClosePdaWithFees(s, Record(d), reimbursement, vaults, RENT_FEES_PERCENTAGE).value;
    CloseWithFeesEffect(s, Record(d), reimbursement, vaults, RENT_FEES_PERCENTAGE, s1);
    CloseWithFeesSucceeds(s1, Metadata(d), reimbursement, ValidatorVault(v), FeesVault);
  }

  // ---- When an undelegation succeeds ----

  /** The runtime lets a reply through exactly when it leaves the buffer, and a validator account of the program, as
      they are but for added lamports, and makes and loses none. */
  lemma CallSucceedsIff(s: Store, v: Key, d: Key, reply: CpiReply)
    requires !ProgramAddress(v) && ProgramSigns(d) && v != d && !Owned(s, d)
    ensures var r := CallOwnerProgram(s, d, UndelegateBuffer(d), v, reply);
            && (r.Ok? <==>
                  && reply.CpiReturns?
                  && Kept(At(s, UndelegateBuffer(d)), reply.buffer)
                  && (Owned(s, v) ==> Kept(At(s, v), reply.validator))
                  && reply.delegated.lamports + reply.buffer.lamports + reply.validator.lamports
                     == Lamports(s, d) + Lamports(s, UndelegateBuffer(d)) + Lamports(s, v))
            && (r.Ok? ==>
                  && At(r.value, d) == reply.delegated
                  && At(r.value, UndelegateBuffer(d)) == reply.buffer
                  && At(r.value, v) == reply.validator)
  {
    BufferAddress(d);
    SignedPlain(d);
    hide ProgramAddress, ProgramSigns, Kept;
    if reply.CpiReturns? {
      var buffer := UndelegateBuffer(d);
      var t := s[d := reply.delegated][buffer := reply.buffer][v := reply.validator];
      assert At(t, d) == reply.delegated && At(t, buffer) == reply.buffer && At(t, v) == reply.validator;
      assert RuntimeAllows(s, t, d, buffer, v) <==>
             && Kept(At(s, buffer), At(t, buffer)) && (Owned(s, v) ==> Kept(At(s, v), At(t, v)))
             && Lamports(t, d) + Lamports(t, buffer) + Lamports(t, v)
                 == Lamports(s, d) + Lamports(s, buffer) + Lamports(s, v);
    }
  }

  lemma BufferAddress(d: Key)
    ensures ProgramAddress(UndelegateBuffer(d))
  {}

  /** What the owner program may answer for an account that held `before` lamports, handed the buffer with its bytes and
      the validator as it is then. */
  predicate Reopens(c: Chain, size: nat, before: nat, buffer: Account, validator: Account, reply: CpiReply) {
    var minimum := c.rent(size);
    && reply.CpiReturns?
    && reply.delegated.data == buffer.data && |buffer.data| == size
    && reply.buffer.owner == buffer.owner && reply.buffer.data == buffer.data
    && buffer.lamports <= reply.buffer.lamports
    && reply.delegated.lamports + reply.buffer.lamports == minimum + buffer.lamports
    && reply.validator.lamports + minimum == validator.lamports
    && (validator.owner == Dlp ==>
          reply.validator.owner == Dlp && reply.validator.data == validator.data && minimum == 0)
    && minimum <= before
    && Pays(reply.validator, before - minimum, true)
  }

  lemma ReopenSucceedsIff(c: Chain, s: Store, v: Key, d: Key, reply: CpiReply)
    requires !ProgramAddress(v) && v != d && ProgramSigns(d) && Total(s) < U64_LIMIT
    ensures var buffer := At(s, UndelegateBuffer(d));
            ReopenByCpi(c, s, v, d, reply).Ok? <==>
            Lamports(s, v) + Lamports(s, d) < U64_LIMIT
            && Reopens(c, |buffer.data|, Lamports(s, d), buffer,
                At(s, v).(lamports := Lamports(s, v) + Lamports(s, d)), reply)
  {
    hide Total, ProgramAddress, ProgramSigns, Delegatable, ClosePda, CallOwnerProgram, Transfer, Frame, Pays;
    SignedPlain(d);
    SessionAddresses(d, v);
    TotalCoversTwo(s, v, d);
    ClosePdaSucceeds(s, d, v);
    var s1 := ClosePda(s, d, v).value;
    ClosePdaEffect(s, d, v, s1);
    CallSucceedsIff(s1, v, d, reply);
    var called := CallOwnerProgram(s1, d, UndelegateBuffer(d), v, reply);
    if called.Ok? {
      CallEffect(s1, d, v, reply, called.value);
      var minimum := c.rent(|reply.delegated.data|);
      if minimum <= Lamports(s, d) {
        TransferSucceedsIff(called.value, v, d, Lamports(s, d) - minimum);
      }
    }
  }

  lemma SignedPlain(d: Key)
    requires ProgramSigns(d)
    ensures Delegatable(d) && !ProgramAddress(d)
  {}

  /** The validator's account at the moment the owner program is called: it has advanced what the buffer lacked, and the
      account has been closed to it. */
  function AtCall(c: Chain, s: Store, v: Key, d: Key): (lamports: int) {
    Lamports(s, v) - (BufferHolds(c, s, d) - Lamports(s, UndelegateBuffer(d))) + Lamports(s, d)
  }

  /** What the owner program must answer for an undelegation of data to succeed: the account reopened with its bytes;
      the buffer unchanged but for lamports that come out of what the account gets; the validator charged exactly the
      rent of the account, and able to repay the rest of its balance. */
  predicate Conforms(c: Chain, s: Store, v: Key, d: Key, reply: CpiReply) {
    var data := At(s, d).data;
    0 <= AtCall(c, s, v, d) < U64_LIMIT && BufferHolds(c, s, d) < U64_LIMIT
    && Reopens(c, |data|, Lamports(s, d), Account(Dlp, BufferHolds(c, s, d), data),
        At(s, v).(lamports := AtCall(c, s, v, d)), reply)
  }

  /** The path through the buffer and the owner program. */
  lemma ReturnDataSucceedsIff(c: Chain, s: Store, v: Key, d: Key, reply: CpiReply)
    requires !ProgramAddress(v) && v != d && ProgramSigns(d) && Owned(s, d)
    requires Total(s) < U64_LIMIT && Fresh(s, UndelegateBuffer(d))
    ensures var held, minimum := Lamports(s, UndelegateBuffer(d)), c.rent(|At(s, d).data|);
            ReturnData(c, s, v, d, reply).Ok? <==>
            Pays(At(s, v), Shortfall(held, minimum), held == 0) && Conforms(c, s, v, d, reply)
  {
    hide Total, ProgramAddress, ProgramSigns, Delegatable, Frame, CreatePda, ClosePda, ReopenByCpi, Zeroes,
         SessionKeys, Shortfall, Reopens, Pays;
    SignedPlain(d);
    SessionAddresses(d, v);
    var buffer, data := UndelegateBuffer(d), At(s, d).data;
    CreateSucceedsIff(c.rent, s, buffer, Dlp, |data|, v);
    ShortfallFills(Lamports(s, buffer), c.rent(|data|));
    var created := CreatePda(c.rent, s, buffer, Dlp, |data|, v);
    if created.Ok? {
      var s1 := created.value;
      CreatedAndWritten(c.rent, s, buffer, Dlp, |data|, v, s1, data);
      var s2 := SetData(s1, buffer, data);
      assert At(s2, d) == At(s, d);
      ReopenSucceedsIff(c, s2, v, d, reply);
      TotalCoversTwo(s2, v, d);
      var reopened := ReopenByCpi(c, s2, v, d, reply);
      if reopened.Ok? {
        ReopenEffect(c, s2, v, d, reply, reopened.value);
        ClosePdaSucceeds(reopened.value, buffer, v);
      }
    }
  }

  /** Exactly when undelegating succeeds, once its checks pass: an account without data always comes back; one with data
      if it is not its own validator, it can be opened again, the validator can pay for the buffer, and the owner
      program's answer conforms. */
  lemma UndelegateSucceedsIff(c: Chain, s: Store, signers: set<Key>, v: Key, d: Key, reply: CpiReply)
    requires SessionOk(s, d) && Abs(s, d).Live? && Abs(s, d).flag && Abs(s, d).pending.None?
    requires v in signers && !ProgramAddress(v) && Owned(s, FeesVault) && Owned(s, ValidatorVault(v))
    requires Total(s) < U64_LIMIT / 10
    ensures HandleUndelegate(c, s, signers, v, d, Abs(s, d).owner, Abs(s, d).rentPayer, reply).Ok? <==>
            var held, minimum := Lamports(s, UndelegateBuffer(d)), c.rent(|At(s, d).data|);
            || At(s, d).data == []
            || (&& v != d && Reopenable(d, Abs(s, d).owner)
                && Pays(At(s, v), Shortfall(held, minimum), held == 0) && Conforms(c, s, v, d, reply))
  {
    hide Total, ProgramAddress, Delegatable, Frame, DecodeRecord, EncodeRecord, DecodeMetadata, EncodeMetadata,
         DecodeCommitRecord, Encodable, ReturnData, Cleanup, SessionKeys, Shortfall, Conforms, Pays, PendingOk,
         ProgramSigns, Callable;
    LiveRecord(s, d);
    SessionAddresses(d, v);
    var payer := MetadataOf(s, d).rentPayer;
    assert MayUndelegate(s, signers, v, d, Abs(s, d).owner, Abs(s, d).rentPayer).Ok?;
    if At(s, d).data == [] {
      var s4 := s[d := At(s, d).(owner := RecordOf(s, d).owner)];
      RewriteEffect(s, d, At(s4, d));
      CleanupSucceeds(s4, d, payer, v);
    } else if v == d || !Reopenable(d, Abs(s, d).owner) {
      DataRefused(c, s, signers, v, d, Abs(s, d).owner, Abs(s, d).rentPayer, reply);
    } else {
      ReturnDataSucceedsIff(c, s, v, d, reply);
      var returned := ReturnData(c, s, v, d, reply);
      if returned.Ok? {
        ReturnedTotal(c, s, v, d, reply, returned.value);
        CleanupSucceeds(returned.value, d, payer, v);
      }
    }
  }

  lemma ReturnedTotal(c: Chain, s: Store, v: Key, d: Key, reply: CpiReply, t: Store)
    requires ReturnData(c, s, v, d, reply) == Ok(t)
    requires !ProgramAddress(v) && Delegatable(d) && Owned(s, d)
    ensures Total(t) == Total(s)
  {
    hide Total, ProgramAddress, Delegatable, Frame, CreatePda, ClosePda, ReopenByCpi, SessionKeys;
    var s1 := CreatePda(c.rent, s, UndelegateBuffer(d), Dlp, |At(s, d).data|, v).value;
    var s3 := ReopenByCpi(c, SetData(s1, UndelegateBuffer(d), At(s, d).data), v, d, reply).value;
    ReopenedThroughBuffer(c, s, v, d, reply, s1, s3, t);
  }

  // ---- What a commit costs comes to lie in its two accounts ----

  /** The lamports of a validator together with those of the commit accounts. */
  function WithCommitAccounts(s: Store, v: Key, d: Key): nat {
    Lamports(s, v) + Lamports(s, CommitState(d)) + Lamports(s, CommitRecord(d))
  }

  lemma StorePaid(c: Chain, s: Store, v: Key, d: Key, args: CommitArgs, t: Store)
    requires StoreCommit(c, s, v, d, args) == Ok(t) && !ProgramAddress(v)
    ensures WithCommitAccounts(t, v, d) == WithCommitAccounts(s, v, d)
    ensures At(t, v).owner == At(s, v).owner && At(t, v).data == At(s, v).data
  {
    hide ProgramAddress, CreatePda, Zeroes, EncodeCommitRecord, Total, Frame, Shortfall;
    CommitAddresses(d, v);
    var s1 := CreatePda(c.rent, s, CommitState(d), Dlp, |args.state|, v).value;
    CreatePdaEffect(c.rent, s, CommitState(d), Dlp, |args.state|, v, s1);
    ShortfallFills(Lamports(s, CommitState(d)), c.rent(|args.state|));
    var s2 := CreatePda(c.rent, s1, CommitRecord(d), Dlp, COMMIT_RECORD_SIZE, v).value;
    CreatePdaEffect(c.rent, s1, CommitRecord(d), Dlp, COMMIT_RECORD_SIZE, v, s2);
    ShortfallFills(Lamports(s1, CommitRecord(d)), c.rent(88));
    assert At(s1, CommitRecord(d)) == At(s, CommitRecord(d)) && At(s2, CommitState(d)) == At(s1, CommitState(d));
    assert At(t, v) == At(s2, v);
    assert Lamports(t, CommitState(d)) == Lamports(s2, CommitState(d))
        && Lamports(t, CommitRecord(d)) == Lamports(s2, CommitRecord(d));
  }

  lemma CollateralPaid(s: Store, v: Key, d: Key, recorded: u64, committed: u64, t: Store)
    requires PostCollateral(s, v, d, recorded, committed) == Ok(t) && !ProgramAddress(v)
    ensures WithCommitAccounts(t, v, d) == WithCommitAccounts(s, v, d)
    ensures At(t, v).owner == At(s, v).owner && At(t, v).data == At(s, v).data
  {
    hide Total, Frame;
    if committed > recorded {
      TransferEffect(s, v, CommitState(d), committed - recorded, t);
    }
  }

  lemma CommitPaid(c: Chain, s: Store, signers: set<Key>, v: Key, d: Key, args: CommitArgs, t: Store)
    requires HandleCommit(c, s, signers, v, d, args) == Ok(t)
    requires SessionOk(s, d) && !ProgramAddress(v) && !Stale(s, d, args.slot)
    ensures WithCommitAccounts(t, v, d) == WithCommitAccounts(s, v, d)
    ensures At(t, v).owner == At(s, v).owner && At(t, v).data == At(s, v).data
  {
    hide ProgramAddress, Delegatable, HandleCommit, StoreCommit, PostCollateral, Total, Frame, DecodeMetadata,
         EncodeMetadata, EncodeCommitRecord, SessionOk, DecodeRecord, EncodeRecord, PendingOk, Stale, SessionKeys,
         Admitted;
    var u := CommitPrepared(c, s, signers, v, d, args, t);
    var s1 := SetData(s, Metadata(d), EncodeMetadata(MetadataOf(s, d).(isUndelegatable := args.allowUndelegation)));
    CommitAddresses(d, v);
    assert WithCommitAccounts(s1, v, d) == WithCommitAccounts(s, v, d) && At(s1, v) == At(s, v);
    CollateralPaid(s1, v, d, RecordOf(s, d).lamports, args.lamports, u);
    StorePaid(c, u, v, d, args, t);
  }

  // ---- Ready to be handed back ----

  /** The bytes an account comes back with. They are settled once undelegation is allowed. Before that the validator
      still chooses: it keeps them, unless the account cannot be opened again and so can only come back empty. */
  function Returned(d: Key, x: Session): Bytes
    requires x.Live?
  {
    if x.flag || Reopenable(d, x.owner) then Outcome(x).0 else []
  }

  /** How many instructions are still needed. */
  function Remaining(x: Session): nat {
    if x.Idle? then 0
    else (if x.flag then 1 else 3) + (if x.pending.Some? then 1 else 0)
  }

  /** What the validator has, counting what the next finalize gives back. */
  function Funds(s: Store, v: Key, d: Key): int
    requires SessionOk(s, d) && Abs(s, d).Live?
  {
    var x := Abs(s, d);
    Lamports(s, v) + (if x.pending.Some? then Refund(s, d, x.recorded, x.pending.value.lamports) else 0)
  }

  /** What the validator must be able to advance: rent for one copy of the bytes, and for a commit record if a commit is
      still to be made. */
  function Advance(c: Chain, d: Key, x: Session): nat
    requires x.Live?
  {
    var size := |Returned(d, x)|;
    if !x.flag then c.rent(size) + c.rent(88) else if size > 0 then c.rent(size) else 0
  }

  /** A live session, a wallet with a vault that made the pending commit if there is one, that the owner program
      approves if a commit is still to be made, and that can advance the rents; and an account that can pay for its
      own rent if its owner program has to open it again. */
  ghost predicate Able(c: Chain, s: Store, v: Key, d: Key) {
    && Inv(c, s) && c.Valid() && Total(s) < U64_LIMIT / 10
    && SessionOk(s, d) && Abs(s, d).Live?
    && Wallet(s, v) && Owned(s, FeesVault) && Owned(s, ValidatorVault(v))
    && var x := Abs(s, d);
       && (x.pending.Some? ==> x.pending.value.identity == v)
       && (!x.flag ==> Approved(s, x.owner).None? || v in Approved(s, x.owner).value)
       && Advance(c, d, x) <= Funds(s, v, d)
       && (Returned(d, x) != [] && Reopenable(d, x.owner) ==> c.rent(|Returned(d, x)|) <= Outcome(x).1)
  }

  /** Nothing but the lock keeps an able validator from handing the account back. */
  ghost predicate Ready(c: Chain, s: Store, v: Key, d: Key) {
    Able(c, s, v, d) && !Locked(s, d)
  }

  /** An able validator is not the account itself, which belongs to the program. */
  lemma AbleApart(c: Chain, s: Store, v: Key, d: Key)
    requires Able(c, s, v, d)
    ensures v != d
  {
    LiveRecord(s, d);
  }

  /** The instruction to submit next. */
  function NextInstruction(s: Store, v: Key, d: Key, reply: CpiReply): Instruction
    requires SessionOk(s, d) && Abs(s, d).Live?
  {
    var x := Abs(s, d);
    if x.pending.Some? then Finalize(v, d)
    else if !x.flag then
      var args := CommitArgs(MetadataOf(s, d).lastUpdateExternalSlot, RecordOf(s, d).lamports, true, Returned(d, x));
      Commit(v, d, args)
    else Undelegate(v, d, x.owner, x.rentPayer, reply)
  }

  /** Finalizing keeps outcome, flag and owner. */
  lemma FinalizeOutcome(x: Session)
    requires Step(x, Finalized).Some?
    ensures var y := Step(x, Finalized).value;
            && y.Live? && y.pending.None? && y.flag == x.flag && y.owner == x.owner
            && Outcome(Grown(y, 0)) == Outcome(x)
  {}

  lemma FinalizeProgress(c: Chain, s: Store, v: Key, d: Key, signers: set<Key>, t: Store)
    requires SessionOk(s, d) && Abs(s, d).Live? && Abs(s, d).pending.Some? && Wallet(s, v) && v != d
    requires HandleFinalize(c, s, signers, v, d) == Ok(t)
    ensures Frame(s, t, SessionKeys(d)) && SessionOk(t, d)
    ensures var x, y := Abs(s, d), Abs(t, d);
            y.Live? && y.pending.None? && y.flag == x.flag && y.owner == x.owner && Outcome(y) == Outcome(x)
  {
    hide HandleFinalize, Total, Frame, SessionOk, Abs, SessionKeys, Step, Outcome;
    LiveRecord(s, d);
    FinalizeEffect(c, s, signers, v, d, t);
    FinalizeOutcome(Abs(s, d));
  }

  lemma FinalizeFunds(c: Chain, s: Store, v: Key, d: Key, signers: set<Key>, t: Store)
    requires SessionOk(s, d) && Abs(s, d).Live? && Abs(s, d).pending.Some? && Wallet(s, v) && v != d
    requires HandleFinalize(c, s, signers, v, d) == Ok(t)
    requires SessionOk(t, d) && Abs(t, d).Live? && Abs(t, d).pending.None?
    ensures Funds(t, v, d) == Funds(s, v, d) && Wallet(t, v)
  {
    hide ProgramAddress, Delegatable, HandleFinalize, Total, Frame, SessionOk, Abs, SessionKeys, Refund, Applies,
         RecordOf, MetadataOf, CommitOf, LiveOk, PendingOk;
    LiveRecord(s, d);
    var r, m, p := FinalizeApplies(c, s, signers, v, d, t);
    ApplyCommitBalances(s, v, d, r, m, p, t);
    AbsPending(s, d);
  }

  lemma AbsPending(s: Store, d: Key)
    requires SessionOk(s, d) && Abs(s, d).Live? && Abs(s, d).pending.Some?
    ensures DecodeRecord(At(s, Record(d)).data).Ok? && Abs(s, d).recorded == RecordOf(s, d).lamports
    ensures DecodeCommitRecord(At(s, CommitRecord(d)).data).Ok?
            && Abs(s, d).pending.value.lamports == CommitOf(s, d).lamports
  {
    hide DecodeRecord, DecodeCommitRecord, DecodeMetadata, EncodeRecord, EncodeMetadata;
  }

  lemma CommitProgress(c: Chain, s: Store, v: Key, d: Key, signers: set<Key>, t: Store)
    requires Ready(c, s, v, d) && v in signers && Abs(s, d).pending.None? && !Abs(s, d).flag
    requires HandleCommit(c, s, signers, v, d, NextInstruction(s, v, d, CpiFails).commitArgs) == Ok(t)
    ensures Frame(s, t, SessionKeys(d)) && SessionOk(t, d)
    ensures var x, y := Abs(s, d), Abs(t, d);
            && y.Live? && y.pending.Some? && y.pending.value.identity == v && y.flag && y.owner == x.owner
            && Outcome(y) == (Returned(d, x), Outcome(x).1) && y.pending.value.lamports == y.recorded
            && Funds(t, v, d) >= Funds(s, v, d)
    ensures Wallet(t, v)
  {
    hide HandleCommit, Total, Frame, SessionOk, SessionKeys, VaultOk, ConfigOk, Approved, ProgramAddress, Chain.Valid,
         Delegatable, DecodeRecord, EncodeRecord, DecodeMetadata, EncodeMetadata, Admitted, LiveOk;
    LiveRecord(s, d);
    var args := NextInstruction(s, v, d, CpiFails).commitArgs;
    CommitEffect(c, s, signers, v, d, args, t);
    CommitPaid(c, s, signers, v, d, args, t);
  }

  /** What a step about d keeps of the surroundings. */
  lemma SurroundingsKept(c: Chain, s: Store, v: Key, d: Key, ix: Instruction, program: Key)
    requires Ready(c, s, v, d) && Frame(s, Next(c, s, Submit(ix, {v})), SessionKeys(d))
    ensures var t := Next(c, s, Submit(ix, {v}));
            && Inv(c, t) && Total(t) < U64_LIMIT / 10 && SessionOk(t, d)
            && Owned(t, FeesVault) && Owned(t, ValidatorVault(v))
            && Approved(t, program) == Approved(s, program)
  {
    hide Next, Total, Frame, SessionOk, VaultOk, ConfigOk, Approved, Chain.Valid, Wallet, Funds, Outcome, Advance,
         Legal, Succeeds, ProgramAddress, Delegatable, Abs;
    var t := Next(c, s, Submit(ix, {v}));
    StepKeeps(c, s, Submit(ix, {v}));
    LiveRecord(s, d);
    SessionAddresses(d, v);
    assert SessionOk(t, d);
    KeptBy(s, t, SessionKeys(d), FeesVault);
    KeptBy(s, t, SessionKeys(d), ValidatorVault(v));
    ApprovedFramed(s, t, program, SessionKeys(d));
  }

  /** An instruction that succeeds takes effect. */
  lemma TakesEffect(c: Chain, s: Store, v: Key, ix: Instruction)
    requires !ProgramAddress(v) && Handle(c, s, {v}, ix).Ok?
    ensures Legal(s, Submit(ix, {v})) && Succeeds(c, s, {v}, ix)
    ensures Next(c, s, Submit(ix, {v})) == Handle(c, s, {v}, ix).value
  {
    hide Handle;
  }

  lemma FinalizeReady(c: Chain, s: Store, v: Key, d: Key)
    requires Ready(c, s, v, d) && Abs(s, d).pending.Some?
    ensures Legal(s, Submit(Finalize(v, d), {v})) && Succeeds(c, s, {v}, Finalize(v, d))
    ensures var t := Next(c, s, Submit(Finalize(v, d), {v}));
            && Ready(c, t, v, d) && Returned(d, Abs(t, d)) == Returned(d, Abs(s, d))
            && Remaining(Abs(t, d)) < Remaining(Abs(s, d))
  {
    hide HandleFinalize, Next, Total, Frame, SessionOk, SessionKeys, VaultOk, ConfigOk, Approved, ProgramAddress,
         Chain.Valid, Delegatable, Abs, Legal, Succeeds, Inv, Outcome, Funds;
    AbleApart(c, s, v, d);
    FinalizeSucceedsIff(c, s, {v}, v, d);
    var t := HandleFinalize(c, s, {v}, v, d).value;
    assert Handle(c, s, {v}, Finalize(v, d)) == Ok(t);
    assert !ProgramAddress(v) by { WalletPlain(s, v); }
    TakesEffect(c, s, v, Finalize(v, d));
    FinalizeProgress(c, s, v, d, {v}, t);
    FinalizeFunds(c, s, v, d, {v}, t);
    SurroundingsKept(c, s, v, d, Finalize(v, d), Abs(s, d).owner);
  }

  lemma WalletPlain(s: Store, v: Key)
    requires Wallet(s, v)
    ensures !ProgramAddress(v)
  {}

  lemma CommitReady(c: Chain, s: Store, v: Key, d: Key)
    requires Ready(c, s, v, d) && Abs(s, d).pending.None? && !Abs(s, d).flag
    ensures var ix := NextInstruction(s, v, d, CpiFails);
            Legal(s, Submit(ix, {v})) && Succeeds(c, s, {v}, ix)
    ensures var t := Next(c, s, Submit(NextInstruction(s, v, d, CpiFails), {v}));
            && Ready(c, t, v, d) && Returned(d, Abs(t, d)) == Returned(d, Abs(s, d))
            && Remaining(Abs(t, d)) < Remaining(Abs(s, d))
  {
    hide HandleCommit, Next, Total, Frame, SessionOk, SessionKeys, VaultOk, ConfigOk, Approved, ProgramAddress,
         Chain.Valid, Delegatable, Abs, Legal, Succeeds, Funds;
    var ix := NextInstruction(s, v, d, CpiFails);
    CommitAffordable(c, s, v, d, ix.commitArgs);
    CommitSucceedsIff(c, s, {v}, v, d, ix.commitArgs);
    var t := HandleCommit(c, s, {v}, v, d, ix.commitArgs).value;
    assert Handle(c, s, {v}, ix) == Ok(t);
    TakesEffect(c, s, v, ix);
    CommitProgress(c, s, v, d, {v}, t);
    SurroundingsKept(c, s, v, d, ix, Abs(s, d).owner);
  }

  lemma CommitAffordable(c: Chain, s: Store, v: Key, d: Key, args: CommitArgs)
    requires Ready(c, s, v, d) && Abs(s, d).pending.None? && !Abs(s, d).flag
    requires args == NextInstruction(s, v, d, CpiFails).commitArgs
    ensures args.slot == Abs(s, d).slot && args.lamports == Abs(s, d).recorded
    ensures CommitCost(c, s, d, Abs(s, d).recorded, args) <= Lamports(s, v)
  {
    hide VaultOk, ConfigOk, Approved, ProgramAddress, Chain.Valid, Delegatable, DecodeRecord, EncodeRecord,
         DecodeMetadata, EncodeMetadata, Total;
    LiveRecord(s, d);
  }

  lemma UndelegateReady(c: Chain, s: Store, v: Key, d: Key, reply: CpiReply)
    requires Ready(c, s, v, d) && Abs(s, d).pending.None? && Abs(s, d).flag
    requires At(s, d).data != [] ==> Conforms(c, s, v, d, reply)
    ensures var ix := NextInstruction(s, v, d, reply);
            Legal(s, Submit(ix, {v})) && Succeeds(c, s, {v}, ix)
    ensures var t := Next(c, s, Submit(NextInstruction(s, v, d, reply), {v}));
            SessionOk(t, d) && Abs(t, d) == Idle && At(t, d).data == Returned(d, Abs(s, d))
  {
    hide HandleUndelegate, Next, Total, Frame, SessionOk, SessionKeys, VaultOk, ConfigOk, Approved, ProgramAddress,
         Chain.Valid, Delegatable, Abs, Legal, Succeeds;
    var ix := NextInstruction(s, v, d, reply);
    LiveData(s, d);
    AbleApart(c, s, v, d);
    LiveRecord(s, d);
    UndelegateSucceedsIff(c, s, {v}, v, d, reply);
    var t := HandleUndelegate(c, s, {v}, v, d, Abs(s, d).owner, Abs(s, d).rentPayer, reply).value;
    assert Handle(c, s, {v}, ix) == Ok(t);
    TakesEffect(c, s, v, ix);
    UndelegateEffect(c, s, {v}, v, d, Abs(s, d).owner, Abs(s, d).rentPayer, reply, t);
  }

  lemma LiveData(s: Store, d: Key)
    requires SessionOk(s, d) && Abs(s, d).Live?
    ensures Abs(s, d).data == At(s, d).data && Abs(s, d).recorded + Abs(s, d).surplus == Lamports(s, d)
  {
    hide RecordOk, MetadataOk, PendingOk, MetadataOf, CommitOf;
  }

  /** The next instruction is the one that calls the owner program. */
  ghost predicate Called(s: Store, d: Key) {
    SessionOk(s, d) && Abs(s, d).Live? && Abs(s, d).flag && Abs(s, d).pending.None? && At(s, d).data != []
  }

  /** From a ready state the next instruction succeeds; either it ends the session, or it leaves a ready state with
      the same bytes to return and less to do. */
  lemma ProgressStep(c: Chain, s: Store, v: Key, d: Key, reply: CpiReply)
    requires Ready(c, s, v, d) && (Called(s, d) ==> Conforms(c, s, v, d, reply))
    ensures var ix := NextInstruction(s, v, d, reply);
            && Legal(s, Submit(ix, {v})) && Succeeds(c, s, {v}, ix)
    ensures var t := Next(c, s, Submit(NextInstruction(s, v, d, reply), {v}));
            && SessionOk(t, d) && Remaining(Abs(t, d)) < Remaining(Abs(s, d))
            && (if Abs(t, d).Idle? then At(t, d).data == Returned(d, Abs(s, d))
               else Ready(c, t, v, d) && Returned(d, Abs(t, d)) == Returned(d, Abs(s, d)))
  {
    hide Next, Ready, SessionOk, Abs, Legal, Succeeds, Conforms, Returned;
    ReadyLive(c, s, v, d);
    var ix := NextInstruction(s, v, d, reply);
    var t := Next(c, s, Submit(ix, {v}));
    if Abs(s, d).pending.Some? {
      FinalizeReady(c, s, v, d);
      ReadyLive(c, t, v, d);
    } else if !Abs(s, d).flag {
      assert ix == NextInstruction(s, v, d, CpiFails);
      CommitReady(c, s, v, d);
      ReadyLive(c, t, v, d);
    } else {
      UndelegateReady(c, s, v, d, reply);
    }
  }

  lemma ReadyLive(c: Chain, s: Store, v: Key, d: Key)
    requires Ready(c, s, v, d)
    ensures SessionOk(s, d) && Abs(s, d).Live?
  {}

  // ---- The whole way ----

  /** What others do between the instructions: anything, as long as it leaves the validator a wallet with no less than
      it had. */
  ghost predicate Spares(c: Chain, v: Key, d: Key, others: Store -> Store) {
    forall s {:trigger others(s)} :: Ready(c, s, v, d) ==>
      Legal(s, Outside(others(s))) && Wallet(others(s), v) && Lamports(s, v) <= Lamports(others(s), v)
  }

  /** An owner program whose answer conforms whenever it is asked. */
  ghost predicate Cooperates(c: Chain, v: Key, d: Key, program: Store -> CpiReply) {
    forall s {:trigger program(s)} :: Ready(c, s, v, d) && Called(s, d) ==> Conforms(c, s, v, d, program(s))
  }

  /** Others and the validator take turns; every instruction is signed by the validator alone and succeeds, and the
      owner program answers as it does. */
  ghost predicate Turns(c: Chain, s: Store, v: Key, moves: seq<Move>, program: Store -> CpiReply,
                        others: Store -> Store)
    decreases |moves|
  {
    || moves == []
    || (&& |moves| >= 2 && moves[0] == Outside(others(s)) && Legal(s, moves[0])
        && var t, m := others(s), moves[1];
           && m.Submit? && m.signers == {v} && Legal(t, m) && Succeeds(c, t, {v}, m.ix)
           && (m.ix.Undelegate? ==> m.ix.reply == program(t))
           && Turns(c, Next(c, t, m), v, moves[2..], program, others))
  }

  /** A ready state stays ready, with the same to return and to do, whatever others do that spares the validator. */
  lemma ReadyKept(c: Chain, s: Store, v: Key, d: Key, t: Store)
    requires Ready(c, s, v, d) && Legal(s, Outside(t)) && Wallet(t, v) && Lamports(s, v) <= Lamports(t, v)
    ensures Ready(c, t, v, d)
    ensures Returned(d, Abs(t, d)) == Returned(d, Abs(s, d)) && Remaining(Abs(t, d)) == Remaining(Abs(s, d))
  {
    hide Next, Total, Frame, SessionOk, VaultOk, ConfigOk, Approved, Chain.Valid, Abs, ProgramAddress, Delegatable,
         Reopenable;
    var m := Outside(t);
    assert Next(c, s, m) == t by { OutsideNext(c, s, t); }
    StepKeeps(c, s, m);
    OutsideGrows(s, t, d);
    LiveRecord(s, d);
    SessionAddresses(d, v);
    KeptBy(s, t, {}, FeesVault);
    KeptBy(s, t, {}, ValidatorVault(v));
    KeptBy(s, t, {}, CommitState(d));
    KeptBy(s, t, {}, CommitRecord(d));
    ApprovedFramed(s, t, Abs(s, d).owner, {});
  }

  lemma OutsideGrows(s: Store, t: Store, d: Key)
    requires Legal(s, Outside(t)) && SessionOk(s, d) && Abs(s, d).Live?
    ensures SessionOk(t, d) && Total(t) == Total(s) && Frame(s, t, {})
    ensures Lamports(s, d) <= Lamports(t, d) && Abs(t, d) == Grown(Abs(s, d), Lamports(t, d) - Lamports(s, d))
  {
    hide SessionOk, Abs, Total, Frame;
    SessionFramed(s, t, d, {});
  }

  /** An owner program that conforms can be written for every account that can be opened again: the validator can
      advance the rents, and the answer is within the runtime's rules. */
  lemma CooperationPossible(c: Chain, v: Key, d: Key, owner: Key)
    ensures Cooperates(c, v, d, s => Cooperative(c, s, v, d, owner))
  {
    hide Ready, Conforms, Called;
    forall s | Ready(c, s, v, d) && Called(s, d) ensures Conforms(c, s, v, d, Cooperative(c, s, v, d, owner)) {
      ReplyConforms(c, s, v, d, owner);
    }
  }

  /** The owner program takes its account back: opened with its rent, at the validator's expense, and with its bytes. */
  function Cooperative(c: Chain, s: Store, v: Key, d: Key, owner: Key): CpiReply {
    var data := At(s, d).data;
    var minimum := c.rent(|data|);
    var paid := Lamports(s, v) - Shortfall(Lamports(s, UndelegateBuffer(d)), minimum) + Lamports(s, d) - minimum;
    if 0 <= paid < U64_LIMIT && BufferHolds(c, s, d) < U64_LIMIT
    then CpiReturns(Account(owner, minimum, data), Account(Dlp, BufferHolds(c, s, d), data), Account(System, paid, []))
    else CpiFails
  }

  lemma ReplyConforms(c: Chain, s: Store, v: Key, d: Key, owner: Key)
    requires Ready(c, s, v, d) && Called(s, d)
    ensures Reopenable(d, Abs(s, d).owner) && Conforms(c, s, v, d, Cooperative(c, s, v, d, owner))
  {
    hide Total, VaultOk, ConfigOk, Approved, ProgramAddress, Chain.Valid, Delegatable, Abs, SessionOk, Reopenable;
    AbleApart(c, s, v, d);
    TotalCoversTwo(s, v, d);
    LiveData(s, d);
    assert Advance(c, d, Abs(s, d)) == c.rent(|At(s, d).data|);
    ShortfallFills(Lamports(s, UndelegateBuffer(d)), c.rent(|At(s, d).data|));
  }

  /** One turn: others act, then the validator. */
  lemma TurnTaken(c: Chain, s: Store, v: Key, d: Key, program: Store -> CpiReply, others: Store -> Store)
    returns (m: Move)
    requires Ready(c, s, v, d) && Cooperates(c, v, d, program) && Spares(c, v, d, others)
    ensures Turns(c, s, v, [Outside(others(s)), m], program, others)
    ensures var t := Next(c, others(s), m);
            && SessionOk(s, d) && SessionOk(t, d) && Remaining(Abs(t, d)) < Remaining(Abs(s, d))
            && (if Abs(t, d).Idle? then At(t, d).data == Returned(d, Abs(s, d))
               else Ready(c, t, v, d) && Returned(d, Abs(t, d)) == Returned(d, Abs(s, d)))
  {
    hide Next, Ready, SessionOk, Abs, Legal, Succeeds, Conforms, Returned, Wallet, Called;
    ReadyLive(c, s, v, d);
    var t := others(s);
    ReadyKept(c, s, v, d, t);
    ReadyLive(c, t, v, d);
    ProgressStep(c, t, v, d, program(t));
    m := Submit(NextInstruction(t, v, d, program(t)), {v});
    assert [Outside(t), m][2..] == [];
  }

  lemma TurnsJoin(c: Chain, s: Store, v: Key, m: Move, rest: seq<Move>, program: Store -> CpiReply,
                  others: Store -> Store)
    requires Turns(c, s, v, [Outside(others(s)), m], program, others)
    requires Turns(c, Next(c, others(s), m), v, rest, program, others)
    ensures Turns(c, s, v, [Outside(others(s)), m] + rest, program, others)
    ensures Run(c, s, [Outside(others(s)), m] + rest) == Run(c, Next(c, others(s), m), rest)
  {
    hide Next, Legal, Succeeds, Run;
    var first := Outside(others(s));
    assert [first, m] == [first] + [m] && ([first, m] + rest)[2..] == rest;
    OutsideNext(c, s, others(s));
    RunOne(c, s, first);
    RunOne(c, others(s), m);
    RunAppend(c, s, [first], [m]);
    RunAppend(c, s, [first, m], rest);
  }

  /** Progress: from a ready state at most four instructions, all of which succeed, hand the account back, whatever
      others do before each of them that spares the validator. It comes back with the bytes of the pending commit if
      there is one and its current bytes otherwise; an account that cannot be opened again, and that no commit released
      yet, comes back empty. */
  lemma {:induction false} HandedBack(c: Chain, s: Store, v: Key, d: Key, program: Store -> CpiReply,
                                      others: Store -> Store) returns (moves: seq<Move>)
    requires Ready(c, s, v, d) && Cooperates(c, v, d, program) && Spares(c, v, d, others)
    ensures |moves| <= 2 * Remaining(Abs(s, d)) <= 8
    ensures Turns(c, s, v, moves, program, others)
    ensures var t := Run(c, s, moves);
            SessionOk(t, d) && Abs(t, d) == Idle && At(t, d).data == Returned(d, Abs(s, d))
    decreases Remaining(Abs(s, d))
  {
    hide Next, Ready, SessionOk, Abs, Returned, Run, Turns, Cooperates, Spares;
    var m := TurnTaken(c, s, v, d, program, others);
    var t := Next(c, others(s), m);
    var rest: seq<Move> := [];
    if Abs(t, d).Live? {
      rest := HandedBack(c, t, v, d, program, others);
    } else {
      RunNone(c, t);
      TurnsNone(c, t, v, program, others);
    }
    moves := [Outside(others(s)), m] + rest;
    TurnsJoin(c, s, v, m, rest, program, others);
  }

  lemma TurnsNone(c: Chain, s: Store, v: Key, program: Store -> CpiReply, others: Store -> Store)
    ensures Turns(c, s, v, [], program, others)
  {}
}
