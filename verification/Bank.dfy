/** The accounts as the handlers see them, updated in place, one write after the other. Every method is proved against
    the function that specifies it; an instruction that fails is rolled back as a whole. */
module Bank {
  import opened Outcomes
  import opened Octets
  import opened Layouts
  import opened Store
  import opened Fees
  import opened Handlers
  import opened Sessions
  import opened Invariants
  import opened SessionEffects
  import opened UndelegateEffects
  import opened VaultEffects
  import opened ConfigEffects
  import opened EscrowEffects
  import opened Runs
  import opened Writers
  import S = Store
  import F = Fees
  import H = Handlers

  /** The outcome of an update in place is the one specified: the accounts are those of a success, or the error is that
      of a failure. What a failed update leaves behind does not matter, because it is undone. */
  ghost predicate Meets(specified: Result<Store>, r: Result<()>, accounts: Store) {
    match specified
    case Ok(t) => r.Ok? && accounts == t
    case Err(e) => r == Err(e)
  }

  // ---- What the instructions promise, from the accounts s to the accounts t ----

  /** An idle account became a live session with its balance recorded and the staged bytes as its data. */
  ghost predicate Opens(s: Store, t: Store, payer: Key, d: Key, owner: Key, seeds: seq<Bytes>) {
    SessionOk(s, d) ==>
      var staged := At(s, DelegateBuffer(d, owner)).data;
      && SessionOk(t, d) && Total(t) == Total(s) && Abs(s, d) == Idle && Lamports(t, d) == Lamports(s, d)
      && var data := if staged == [] then At(s, d).data else staged;
         Abs(t, d) == Live(owner, payer, seeds, 0, false, Lamports(s, d), 0, data, None)
  }

  /** A commit with an older slot was skipped; any other became the pending commit of a session that had none. */
  ghost predicate Pends(s: Store, t: Store, v: Key, d: Key, args: CommitArgs) {
    SessionOk(s, d) ==>
      && SessionOk(t, d) && Total(t) == Total(s)
      && if Stale(s, d, args.slot) then t == s
         else Abs(s, d).Live?
              && Step(Abs(s, d), Committed(v, args.slot, args.lamports, args.allowUndelegation, args.state))
                  == Some(Abs(t, d))
  }

  /** The pending commit, if there was one, was finalized. */
  ghost predicate Finalizes(s: Store, t: Store, v: Key, d: Key) {
    SessionOk(s, d) ==>
      && SessionOk(t, d) && Total(t) == Total(s) && Abs(s, d).Live?
      && if Abs(s, d).pending.None? then t == s
         else Step(Abs(s, d), Finalized).Some? && (v != d ==> Abs(t, d) == Step(Abs(s, d), Finalized).value)
  }

  /** A session that allowed it ended, and the account has exactly the bytes it had in it. */
  ghost predicate Ends(s: Store, t: Store, d: Key) {
    SessionOk(s, d) ==>
      && SessionOk(t, d) && Total(t) == Total(s) && At(t, d).data == At(s, d).data
      && Abs(t, d) == Idle && Step(Abs(s, d), Undelegated(At(t, d).data)) == Some(Idle)
  }

  lemma DelegateOpens(c: Chain, s: Store, signers: set<Key>, payer: Key, d: Key, program: Key, args: DelegateArgs,
                      t: Store)
    requires HandleDelegate(c, s, signers, payer, d, program, args) == Ok(t) && !ProgramAddress(payer) && Delegatable(d)
    ensures Opens(s, t, payer, d, program, args.seeds)
  {
    hide HandleDelegate, DelegateBuffer, SessionOk, Abs, Total, Frame, SessionKeys, ProgramAddress, Delegatable;
    if SessionOk(s, d) {
      DelegateEffect(c, s, signers, payer, d, program, args, t);
    }
  }

  lemma DelegateEscrowOpens(c: Chain, s: Store, signers: set<Key>, payer: Key, of: Key, index: byte,
                            args: DelegateArgs, t: Store)
    requires HandleDelegateEscrow(c, s, signers, payer, of, index, args) == Ok(t) && !ProgramAddress(payer)
    ensures Opens(s, t, payer, Escrow(of, index), System, EscrowSeeds(of, index))
  {
    hide HandleDelegateEscrow, DelegateBuffer, SessionOk, Abs, Total, Frame, SessionKeys, ProgramAddress, EscrowSeeds;
    if SessionOk(s, Escrow(of, index)) {
      DelegateEscrowEffect(c, s, signers, payer, of, index, args, t);
    }
  }

  lemma CommitPends(c: Chain, s: Store, signers: set<Key>, v: Key, d: Key, args: CommitArgs, t: Store)
    requires HandleCommit(c, s, signers, v, d, args) == Ok(t) && !ProgramAddress(v)
    ensures Pends(s, t, v, d, args)
  {
    hide HandleCommit, SessionOk, Abs, Total, Frame, SessionKeys, ProgramAddress, Stale, Step, Admitted;
    if SessionOk(s, d) {
      if Stale(s, d, args.slot) {
        StaleCommitSkips(c, s, signers, v, d, args, t);
      } else {
        CommitEffect(c, s, signers, v, d, args, t);
      }
    }
  }

  lemma FinalizeFinalizes(c: Chain, s: Store, signers: set<Key>, v: Key, d: Key, t: Store)
    requires HandleFinalize(c, s, signers, v, d) == Ok(t) && !ProgramAddress(v)
    ensures Finalizes(s, t, v, d)
  {
    hide HandleFinalize, SessionOk, Abs, Total, Frame, SessionKeys, ProgramAddress, Step;
    if SessionOk(s, d) {
      LiveRecord(s, d);
      FinalizeNeedsSession(c, s, signers, v, d);
      if Fresh(s, CommitState(d)) {
        FinalizeSkipsPaired(c, s, signers, v, d, t);
      } else {
        FinalizeEffect(c, s, signers, v, d, t);
        StepStaysLive(Abs(s, d), Finalized);
        var y := Step(Abs(s, d), Finalized).value;
        assert y.(surplus := y.surplus + 0) == y;
      }
    }
  }

  lemma FinalizeNeedsSession(c: Chain, s: Store, signers: set<Key>, v: Key, d: Key)
    requires HandleFinalize(c, s, signers, v, d).Ok?
    ensures !Fresh(s, Record(d))
  {
    hide ApplyCommit;
  }

  lemma UndelegateEnds(c: Chain, s: Store, signers: set<Key>, v: Key, d: Key, program: Key, reimbursement: Key,
                       reply: CpiReply, t: Store)
    requires HandleUndelegate(c, s, signers, v, d, program, reimbursement, reply) == Ok(t) && !ProgramAddress(v)
    ensures Ends(s, t, d)
  {
    hide HandleUndelegate, SessionOk, Abs, Total, Frame, SessionKeys, ProgramAddress, Step;
    if SessionOk(s, d) {
      UndelegateEffect(c, s, signers, v, d, program, reimbursement, reply, t);
    }
  }

  /** Every instruction, in a store under the invariant: the invariant and the lamports of all accounts are kept, and
      each session moves by exactly the events of the step. */
  ghost predicate Steps(c: Chain, s: Store, m: Move, t: Store) {
    Inv(c, s) && c.Valid() && Legal(s, m) ==>
      && Inv(c, t) && Total(t) == Total(s)
      && forall d {:trigger EventsOf(s, m, t, d)} ::
           SessionOk(s, d) && SessionOk(t, d) && ReplayFrom(Abs(s, d), EventsOf(s, m, t, d)) == Some(Abs(t, d))
  }

  lemma ExecSteps(c: Chain, s: Store, m: Move)
    requires m.Submit?
    ensures Steps(c, s, m, Exec(c, s, m.signers, m.ix))
  {
    hide Exec, Total, Chain.Valid, SessionOk, VaultOk, ConfigOk, Abs, ReplayFrom, EventsOf, Legal;
    if Inv(c, s) && c.Valid() && Legal(s, m) {
      assert Next(c, s, m) == Exec(c, s, m.signers, m.ix);
      StepKeeps(c, s, m);
      forall d ensures SessionOk(s, d) && SessionOk(Next(c, s, m), d)
        && ReplayFrom(Abs(s, d), EventsOf(s, m, Next(c, s, m), d)) == Some(Abs(Next(c, s, m), d))
      {
        StepRefines(c, s, m, d);
      }
    }
  }

  class Bank {
    const c: Chain
    var accounts: Store

    constructor (c: Chain, accounts: Store)
      ensures this.c == c && this.accounts == accounts
    {
      this.c, this.accounts := c, accounts;
    }

    // ---- Single accounts ----

    method SetLamports(k: Key, lamports: u64)
      modifies this`accounts
      ensures accounts == old(accounts)[k := At(old(accounts), k).(lamports := lamports)]
    {
      accounts := accounts[k := At(accounts, k).(lamports := lamports)];
    }

    method SetOwner(k: Key, owner: Key)
      modifies this`accounts
      ensures accounts == old(accounts)[k := At(old(accounts), k).(owner := owner)]
    {
      accounts := accounts[k := At(accounts, k).(owner := owner)];
    }

    method CopyData(k: Key, data: Bytes)
      modifies this`accounts
      ensures accounts == SetData(old(accounts), k, data)
    {
      accounts := accounts[k := At(accounts, k).(data := data)];
    }

    /** No lamports, no data, back to the system program. */
    method Vacate(k: Key)
      modifies this`accounts
      ensures accounts == old(accounts)[k := EMPTY]
    {
      SetLamports(k, 0);
      SetOwner(k, System);
      CopyData(k, []);
    }

    /** Rewrites the bytes of an account in place through a writer over them. */
    method RewriteMetadata(k: Key, m: DelegationMetadata) returns (r: Result<()>)
      modifies this`accounts
      ensures var written := Overwrite(At(old(accounts), k).data, EncodeMetadata(m));
              var outcome := if written.Ok? then Ok(SetData(old(accounts), k, written.value)) else Err(written.error);
              Meets(outcome, r, accounts)
    {
      hide EncodeMetadata, Overwrite;
      var data := At(accounts, k).data;
      var slice := new Octet[|data|](i requires 0 <= i < |data| => data[i]);
      assert slice[..] == data;
      var writer := new SliceWriter(slice);
      var fits := WriteMetadata(writer, m);
      if !fits {
        return Err(WriteZero);
      }
      CopyData(k, slice[..]);
      r := Ok(());
    }

    method RewriteConfig(k: Key, listed: seq<Key>) returns (r: Result<()>)
      modifies this`accounts
      ensures var written := Overwrite(At(old(accounts), k).data, EncodeConfig(listed));
              var outcome := if written.Ok? then Ok(SetData(old(accounts), k, written.value)) else Err(written.error);
              Meets(outcome, r, accounts)
    {
      hide EncodeConfig, Overwrite;
      var data := At(accounts, k).data;
      var slice := new Octet[|data|](i requires 0 <= i < |data| => data[i]);
      assert slice[..] == data;
      var writer := new SliceWriter(slice);
      var fits := WriteConfig(writer, listed);
      if !fits {
        return Err(WriteZero);
      }
      CopyData(k, slice[..]);
      r := Ok(());
    }

    /** Writes a struct of fixed layout over the whole of an account. */
    method WriteStruct(k: Key, tag: byte, body: Bytes)
      requires |At(accounts, k).data| == 8 + |body|
      modifies this`accounts
      ensures accounts == SetData(old(accounts), k, Layouts.Discriminator(tag) + body)
    {
      var slice := new Octet[8 + |body|](_ => B(0));
      var written := WriteFixed(slice, tag, body);
      CopyData(k, slice[..]);
    }

    // ---- The system program ----

    method Transfer(from: Key, to: Key, amount: u64) returns (r: Result<()>)
      modifies this`accounts
      ensures Meets(S.Transfer(old(accounts), from, to, amount), r, accounts)
    {
      var source := At(accounts, from);
      :- Need(source.data == [], InvalidArgument);
      :- Need(amount <= source.lamports, InsufficientFunds);
      :- Need(amount > 0 ==> source.owner == System, ExternalLamportSpend);
      SetLamports(from, source.lamports - amount);
      r := Credit(to, amount);
    }

    method Credit(k: Key, amount: u64) returns (r: Result<()>)
      modifies this`accounts
      ensures Meets(S.Credit(old(accounts), k, amount), r, accounts)
    {
      var balance := Lamports(accounts, k) + amount;
      :- Need(balance < U64_LIMIT, Overflow);
      SetLamports(k, balance);
      r := Ok(());
    }

    method Allocate(k: Key, space: nat, owner: Key) returns (r: Result<()>)
      modifies this`accounts
      ensures Meets(AllocateAndAssign(old(accounts), k, space, owner), r, accounts)
    {
      var unused := Fresh(accounts, k);
      :- Need(unused, AccountAlreadyInitialized);
      CopyData(k, Zeroes(space));
      SetOwner(k, owner);
      r := Ok(());
    }

    // ---- Program-derived accounts ----

    method CreatePda(target: Key, owner: Key, space: nat, payer: Key) returns (r: Result<()>)
      modifies this`accounts
      ensures Meets(S.CreatePda(c.rent, old(accounts), target, owner, space, payer), r, accounts)
    {
      hide AllocateAndAssign, S.Transfer;
      if Lamports(accounts, target) == 0 {
        var _ :- Allocate(target, space, owner);
        r := Transfer(payer, target, c.rent(space));
      } else {
        var missing := Shortfall(Lamports(accounts, target), c.rent(space));
        if missing > 0 {
          var _ :- Transfer(payer, target, missing);
        }
        r := Allocate(target, space, owner);
      }
    }

    method ResizePda(payer: Key, pda: Key, size: nat, stale: Bytes) returns (r: Result<()>)
      modifies this`accounts
      ensures Meets(S.ResizePda(c.rent, old(accounts), payer, pda, size, stale), r, accounts)
    {
      hide S.Transfer, Realloc;
      var _ :- Transfer(payer, pda, Shortfall(Lamports(accounts, pda), c.rent(size)));
      CopyData(pda, Realloc(At(accounts, pda).data, size, stale));
      r := Ok(());
    }

    method ClosePda(target: Key, destination: Key) returns (r: Result<()>)
      modifies this`accounts
      ensures Meets(S.ClosePda(old(accounts), target, destination), r, accounts)
    {
      var balance := Lamports(accounts, destination) + Lamports(accounts, target);
      :- Need(balance < U64_LIMIT, Panic);
      SetLamports(destination, balance);
      Vacate(target);
      r := Ok(());
    }

    /** Fills the fee vector in place, credits every fee address in turn, then the destination with what remains. */
    method ClosePdaWithFees(target: Key, destination: Key, vaults: seq<Key>, percentage: byte) returns (r: Result<()>)
      modifies this`accounts
      ensures Meets(F.ClosePdaWithFees(old(accounts), target, destination, vaults, percentage), r, accounts)
    {
      hide Cumulative, CreditAll, Shares;
      :- Need(vaults != [] && percentage <= 100, InvalidArgument);
      var balance := Lamports(accounts, target);
      var total, fees := SplitFees(balance, percentage, |vaults|);
      if total.Err? {
        return Err(total.error);
      }
      SharesPositive(balance, percentage, |vaults|);
      var _ :- CreditEach(vaults, fees);
      CumulativeDecreases(balance, percentage, 0);
      var _ :- CreditChecked(destination, balance - total.value);
      Vacate(target);
      r := Ok(());
    }

    method CreditChecked(k: Key, amount: u64) returns (r: Result<()>)
      modifies this`accounts
      ensures Meets(CreditOrFail(old(accounts), k, amount), r, accounts)
    {
      var balance := Lamports(accounts, k) + amount;
      :- Need(balance < U64_LIMIT, InsufficientFunds);
      SetLamports(k, balance);
      r := Ok(());
    }

    method CreditEach(keys: seq<Key>, amounts: array<u64>) returns (r: Result<()>)
      requires amounts.Length == |keys|
      modifies this`accounts
      ensures Meets(CreditAll(old(accounts), keys, amounts[..]), r, accounts)
    {
      hide CreditOrFail;
      ghost var shares: seq<int> := amounts[..];
      var i := 0;
      while i < |keys|
        invariant 0 <= i <= |keys|
        invariant CreditAll(old(accounts), keys[..i], shares[..i]) == Ok(accounts)
      {
        CreditNext(old(accounts), keys, shares, i);
        var credited := CreditChecked(keys[i], amounts[i]);
        if credited.Err? {
          CreditPrefixFails(old(accounts), keys, shares, i + 1);
          return credited;
        }
        i := i + 1;
      }
      assert keys[..|keys|] == keys && shares[..|keys|] == shares;
      r := Ok(());
    }

    // ---- Delegate ----

    method Delegate(signers: set<Key>, payer: Key, delegated: Key, ownerProgram: Key, args: DelegateArgs)
      returns (r: Result<()>)
      modifies this`accounts
      ensures Meets(HandleDelegate(c, old(accounts), signers, payer, delegated, ownerProgram, args), r, accounts)
      ensures r.Ok? && !ProgramAddress(payer) && Delegatable(delegated) ==>
                Opens(old(accounts), accounts, payer, delegated, ownerProgram, args.seeds)
    {
      hide S.CreatePda, SeedsMatch, DelegateBuffer, Encodable, RecordBody, EncodeMetadata, Opens, ProgramAddress,
           Delegatable;
      :- Initialized(accounts, delegated);
      :- SeedsMatch(delegated, ownerProgram, args.seeds);
      :- Uninitialized(accounts, Record(delegated));
      :- Uninitialized(accounts, Metadata(delegated));
      :- Signs(payer, signers);
      :- Signs(delegated, signers);
      var _ :- CreatePda(Record(delegated), Dlp, RECORD_SIZE, payer);
      CreatedSize(c.rent, old(accounts), Record(delegated), Dlp, RECORD_SIZE, payer, accounts);
      var record := NewRecord(accounts, delegated, ownerProgram, args);
      RecordBodySize(record);
      WriteStruct(Record(delegated), RECORD_TAG, RecordBody(record));
      :- Need(Encodable(args.seeds), InvalidAccountData);
      var bytes := EncodeMetadata(NewMetadata(payer, args));
      var _ :- CreatePda(Metadata(delegated), Dlp, |bytes|, payer);
      CopyData(Metadata(delegated), bytes);
      var staged := At(accounts, DelegateBuffer(delegated, ownerProgram)).data;
      if staged != [] {
        :- Need(|staged| == |At(accounts, delegated).data|, Panic);
        CopyData(delegated, staged);
      }
      r := Ok(());
      if !ProgramAddress(payer) && Delegatable(delegated) {
        DelegateOpens(c, old(accounts), signers, payer, delegated, ownerProgram, args, accounts);
      }
    }

    // ---- Commit ----

    method Commit(signers: set<Key>, validator: Key, delegated: Key, args: CommitArgs) returns (r: Result<()>)
      modifies this`accounts
      ensures Meets(HandleCommit(c, old(accounts), signers, validator, delegated, args), r, accounts)
      ensures r.Ok? && !ProgramAddress(validator) ==> Pends(old(accounts), accounts, validator, delegated, args)
    {
      hide S.Transfer, StoreCommit, Admitted, Overwrite, DecodeMetadata, DecodeRecord, EncodeMetadata, Pends,
           ProgramAddress;
      :- Initialized(accounts, delegated);
      :- Signs(validator, signers);
      :- Initialized(accounts, Record(delegated));
      :- Initialized(accounts, Metadata(delegated));
      :- Initialized(accounts, ValidatorVault(validator));
      var meta :- DecodeMetadata(At(accounts, Metadata(delegated)).data);
      if args.slot < meta.lastUpdateExternalSlot {
        if !ProgramAddress(validator) {
          CommitPends(c, old(accounts), signers, validator, delegated, args, accounts);
        }
        return Ok(());
      }
      :- Need(!meta.isUndelegatable, AlreadyUndelegated);
      var _ :- RewriteMetadata(Metadata(delegated), meta.(isUndelegatable := args.allowUndelegation));
      var record :- DecodeRecord(At(accounts, Record(delegated)).data);
      :- Need(record.lamports <= Lamports(accounts, delegated), InvalidDelegatedState);
      if args.lamports > record.lamports {
        var _ :- Transfer(validator, CommitState(delegated), args.lamports - record.lamports);
      }
      :- Admitted(accounts, record.owner, validator);
      r := CreateCommit(validator, delegated, args);
      if r.Ok? && !ProgramAddress(validator) {
        CommitPends(c, old(accounts), signers, validator, delegated, args, accounts);
      }
    }

    method CreateCommit(validator: Key, delegated: Key, args: CommitArgs) returns (r: Result<()>)
      modifies this`accounts
      ensures Meets(StoreCommit(c, old(accounts), validator, delegated, args), r, accounts)
    {
      hide S.CreatePda, CommitRecordBody;
      :- Uninitialized(accounts, CommitState(delegated));
      :- Uninitialized(accounts, CommitRecord(delegated));
      var _ :- CreatePda(CommitState(delegated), Dlp, |args.state|, validator);
      ghost var s1 := accounts;
      var _ :- CreatePda(CommitRecord(delegated), Dlp, COMMIT_RECORD_SIZE, validator);
      CreatedSize(c.rent, s1, CommitRecord(delegated), Dlp, COMMIT_RECORD_SIZE, validator, accounts);
      var record := CommitRecordData(validator, delegated, args.slot, args.lamports);
      CommitRecordBodySize(record);
      WriteStruct(CommitRecord(delegated), COMMIT_RECORD_TAG, CommitRecordBody(record));
      CopyData(CommitState(delegated), args.state);
      r := Ok(());
    }

    // ---- Finalize ----

    method Finalize(signers: set<Key>, validator: Key, delegated: Key) returns (r: Result<()>)
      modifies this`accounts
      ensures Meets(HandleFinalize(c, old(accounts), signers, validator, delegated), r, accounts)
      ensures r.Ok? && !ProgramAddress(validator) ==> Finalizes(old(accounts), accounts, validator, delegated)
    {
      hide ApplyCommit, Finalizes, ProgramAddress;
      :- Signs(validator, signers);
      :- Initialized(accounts, delegated);
      :- Initialized(accounts, Record(delegated));
      :- Initialized(accounts, Metadata(delegated));
      :- Initialized(accounts, ValidatorVault(validator));
      if Fresh(accounts, CommitState(delegated)) && Fresh(accounts, CommitRecord(delegated)) {
        r := Ok(());
      } else {
        r := Apply(validator, delegated);
      }
      if r.Ok? && !ProgramAddress(validator) {
        FinalizeFinalizes(c, old(accounts), signers, validator, delegated, accounts);
      }
    }

    method Apply(validator: Key, delegated: Key) returns (r: Result<()>)
      modifies this`accounts
      ensures Meets(ApplyCommit(old(accounts), validator, delegated), r, accounts)
    {
      hide Settle, WriteFinalized, S.ClosePda, DecodeMetadata, DecodeRecord, DecodeCommitRecord;
      :- Initialized(accounts, CommitState(delegated));
      :- Initialized(accounts, CommitRecord(delegated));
      var meta :- DecodeMetadata(At(accounts, Metadata(delegated)).data);
      var record :- DecodeRecord(At(accounts, Record(delegated)).data);
      var commit :- DecodeCommitRecord(At(accounts, CommitRecord(delegated)).data);
      :- Need(commit.account == delegated, InvalidDelegatedAccount);
      :- Need(commit.identity == validator, InvalidReimbursementAccount);
      var _ :- SettleBalance(delegated, validator, record.lamports, commit.lamports);
      var _ :- Write(delegated, meta.(lastUpdateExternalSlot := commit.slot));
      var _ :- ClosePda(CommitState(delegated), validator);
      r := ClosePda(CommitRecord(delegated), validator);
    }

    method SettleBalance(delegated: Key, validator: Key, recorded: u64, committed: u64) returns (r: Result<()>)
      modifies this`accounts
      ensures Meets(Settle(old(accounts), delegated, validator, recorded, committed), r, accounts)
    {
      hide S.Credit;
      if recorded == committed {
        return Ok(());
      }
      var from, to, amount := delegated, ValidatorVault(validator), 0;
      if recorded > committed {
        amount := recorded - committed;
      } else {
        from, to, amount := CommitState(delegated), delegated, committed - recorded;
      }
      :- Need(amount <= Lamports(accounts, from), Overflow);
      SetLamports(from, Lamports(accounts, from) - amount);
      r := Credit(to, amount);
    }

    method Write(delegated: Key, meta: DelegationMetadata) returns (r: Result<()>)
      modifies this`accounts
      ensures Meets(WriteFinalized(old(accounts), delegated, meta), r, accounts)
    {
      hide Overwrite, EncodeMetadata, PatchRecordLamports;
      var _ :- RewriteMetadata(Metadata(delegated), meta);
      :- Need(|At(accounts, Record(delegated)).data| == RECORD_SIZE, InvalidAccountData);
      CopyData(Record(delegated),
          PatchRecordLamports(At(accounts, Record(delegated)).data, Lamports(accounts, delegated)));
      CopyData(delegated, At(accounts, CommitState(delegated)).data);
      r := Ok(());
    }

    // ---- Undelegate ----

    method Undelegate(signers: set<Key>, validator: Key, delegated: Key, ownerProgram: Key, reimbursement: Key,
                      reply: CpiReply)
      returns (r: Result<()>)
      modifies this`accounts
      ensures Meets(
                HandleUndelegate(c, old(accounts), signers, validator, delegated, ownerProgram, reimbursement, reply),
                r, accounts)
      ensures r.Ok? && !ProgramAddress(validator) ==> Ends(old(accounts), accounts, delegated)
    {
      hide H.Cleanup, H.ReturnData, MayUndelegate, Ends, ProgramAddress;
      var _ :- MayUndelegate(accounts, signers, validator, delegated, ownerProgram, reimbursement);
      if At(accounts, delegated).data == [] {
        SetOwner(delegated, ownerProgram);
      } else {
        var _ :- ReturnData(validator, delegated, Answer(ownerProgram, reply));
      }
      r := Cleanup(delegated, reimbursement, validator);
      if r.Ok? && !ProgramAddress(validator) {
        UndelegateEnds(c, old(accounts), signers, validator, delegated, ownerProgram, reimbursement, reply, accounts);
      }
    }

    method ReturnData(validator: Key, delegated: Key, reply: CpiReply) returns (r: Result<()>)
      modifies this`accounts
      ensures Meets(H.ReturnData(c, old(accounts), validator, delegated, reply), r, accounts)
    {
      hide H.ReopenByCpi, S.CreatePda, S.ClosePda;
      var buffer, data := UndelegateBuffer(delegated), At(accounts, delegated).data;
      :- Uninitialized(accounts, buffer);
      var _ :- CreatePda(buffer, Dlp, |data|, validator);
      CopyData(buffer, data);
      var _ :- ReopenByCpi(validator, delegated, reply);
      r := ClosePda(buffer, validator);
    }

    method ReopenByCpi(validator: Key, delegated: Key, reply: CpiReply) returns (r: Result<()>)
      modifies this`accounts
      ensures Meets(H.ReopenByCpi(c, old(accounts), validator, delegated, reply), r, accounts)
    {
      hide S.ClosePda, H.CallOwnerProgram, S.Transfer;
      var before := Lamports(accounts, delegated);
      var buffer := UndelegateBuffer(delegated);
      var _ :- ClosePda(delegated, validator);
      var beforeCpi := Lamports(accounts, validator);
      var _ :- CallOwnerProgram(delegated, buffer, validator, reply);
      var minimum := c.rent(|At(accounts, delegated).data|);
      :- Need(Lamports(accounts, validator) + minimum < U64_LIMIT, Overflow);
      :- Need(beforeCpi == Lamports(accounts, validator) + minimum, InvalidValidatorBalanceAfterCpi);
      :- Need(At(accounts, delegated).data == At(accounts, buffer).data, InvalidAccountDataAfterCpi);
      :- Need(minimum <= before, Overflow);
      r := Transfer(validator, delegated, before - minimum);
    }

    /** The owner program rewrites the three accounts it is handed, if the runtime lets it. */
    method CallOwnerProgram(delegated: Key, buffer: Key, validator: Key, reply: CpiReply) returns (r: Result<()>)
      modifies this`accounts
      ensures Meets(H.CallOwnerProgram(old(accounts), delegated, buffer, validator, reply), r, accounts)
    {
      hide RuntimeAllows;
      var before := accounts;
      if reply.CpiFails? {
        return Err(CpiFailed);
      }
      accounts := accounts[delegated := reply.delegated];
      accounts := accounts[buffer := reply.buffer];
      accounts := accounts[validator := reply.validator];
      :- Need(RuntimeAllows(before, accounts, delegated, buffer, validator), CpiFailed);
      r := Ok(());
    }

    method Cleanup(delegated: Key, reimbursement: Key, validator: Key) returns (r: Result<()>)
      modifies this`accounts
      ensures Meets(H.Cleanup(old(accounts), delegated, reimbursement, validator), r, accounts)
    {
      hide F.ClosePdaWithFees;
      var vaults := [ValidatorVault(validator), FeesVault];
      var _ :- ClosePdaWithFees(Record(delegated), reimbursement, vaults, RENT_FEES_PERCENTAGE);
      r := ClosePdaWithFees(Metadata(delegated), reimbursement, vaults, RENT_FEES_PERCENTAGE);
    }

    // ---- Vaults and fees ----

    method InitFeesVault(signers: set<Key>, payer: Key) returns (r: Result<()>)
      modifies this`accounts
      ensures Meets(HandleInitFeesVault(c, old(accounts), signers, payer), r, accounts)
      ensures r.Ok? && !ProgramAddress(payer) ==>
                NewVault(c, accounts, FeesVault) && Total(accounts) == Total(old(accounts))
    {
      hide S.CreatePda, ProgramAddress, VaultOk, NewVault, Total;
      :- Signs(payer, signers);
      :- Uninitialized(accounts, FeesVault);
      r := CreatePda(FeesVault, Dlp, VAULT_SIZE, payer);
      if r.Ok? && !ProgramAddress(payer) {
        VaultAddresses(payer);
        VaultOpened(c, old(accounts), FeesVault, payer, accounts);
      }
    }

    method InitValidatorVault(signers: set<Key>, payer: Key, admin: Key, identity: Key) returns (r: Result<()>)
      modifies this`accounts
      ensures Meets(HandleInitValidatorVault(c, old(accounts), signers, payer, admin, identity), r, accounts)
      ensures r.Ok? && !ProgramAddress(payer) ==>
                NewVault(c, accounts, ValidatorVault(identity)) && Total(accounts) == Total(old(accounts))
    {
      hide S.CreatePda, ProgramAddress, VaultOk, NewVault, Total;
      :- Signs(payer, signers);
      :- Signs(admin, signers);
      :- IsAdmin(c, admin);
      :- Uninitialized(accounts, ValidatorVault(identity));
      r := CreatePda(ValidatorVault(identity), Dlp, VAULT_SIZE, payer);
      if r.Ok? && !ProgramAddress(payer) {
        VaultAddresses(identity);
        VaultOpened(c, old(accounts), ValidatorVault(identity), payer, accounts);
      }
    }

    method CloseValidatorVault(signers: set<Key>, payer: Key, admin: Key, identity: Key) returns (r: Result<()>)
      modifies this`accounts
      ensures Meets(HandleCloseValidatorVault(c, old(accounts), signers, payer, admin, identity), r, accounts)
      ensures r.Ok? ==>
                && Fresh(accounts, ValidatorVault(identity)) && Total(accounts) == Total(old(accounts))
                && Lamports(accounts, identity)
                    == Lamports(old(accounts), identity) + Lamports(old(accounts), ValidatorVault(identity))
    {
      hide S.ClosePda, Total;
      :- Signs(payer, signers);
      :- Signs(admin, signers);
      :- IsAdmin(c, admin);
      :- Initialized(accounts, ValidatorVault(identity));
      r := ClosePda(ValidatorVault(identity), identity);
      if r.Ok? {
        CloseValidatorVaultEffect(c, old(accounts), signers, payer, admin, identity, accounts);
      }
    }

    method ClaimValidatorFees(signers: set<Key>, validator: Key, claim: Option<u64>) returns (r: Result<()>)
      modifies this`accounts
      ensures Meets(HandleClaimValidatorFees(c, old(accounts), signers, validator, claim), r, accounts)
      ensures r.Ok? && VaultOk(c, old(accounts), ValidatorVault(validator)) && !ProgramAddress(validator) ==>
                var claimed :=
                    Lamports(old(accounts), ValidatorVault(validator)) - Lamports(accounts, ValidatorVault(validator));
                var fees := Lamports(accounts, FeesVault) - Lamports(old(accounts), FeesVault);
                && Total(accounts) == Total(old(accounts))
                && c.rent(8) <= Lamports(accounts, ValidatorVault(validator))
                && Lamports(accounts, validator) - Lamports(old(accounts), validator) == claimed - fees
                && (claimed * 10 < U64_LIMIT ==> fees == claimed / 10)
    {
      hide H.MoveFees, PlainSub, PlainMul, ProgramAddress, VaultOk, Total;
      :- Signs(validator, signers);
      :- Initialized(accounts, FeesVault);
      :- Initialized(accounts, ValidatorVault(validator));
      var vault := ValidatorVault(validator);
      var available :- PlainSub(c, Lamports(accounts, vault), c.rent(VAULT_SIZE));
      var amount := match claim case None => available case Some(a) => a;
      :- Need(amount <= available, InsufficientFunds);
      var product :- PlainMul(c, amount, PROTOCOL_FEES_PERCENTAGE);
      r := MoveFees(validator, amount, product / 100);
      if r.Ok? && VaultOk(c, old(accounts), vault) && !ProgramAddress(validator) {
        ClaimMoves(c, old(accounts), signers, validator, claim, accounts);
      }
    }

    method MoveFees(validator: Key, amount: u64, protocolFees: u64) returns (r: Result<()>)
      modifies this`accounts
      ensures Meets(H.MoveFees(old(accounts), validator, amount, protocolFees), r, accounts)
    {
      hide S.Credit;
      var vault := ValidatorVault(validator);
      var remaining := if protocolFees <= amount then amount - protocolFees else 0;
      var _ :- Credit(FeesVault, protocolFees);
      :- Need(amount <= Lamports(accounts, vault), InsufficientFunds);
      SetLamports(vault, Lamports(accounts, vault) - amount);
      r := Credit(validator, remaining);
    }

    method ClaimProtocolFees(signers: set<Key>, admin: Key) returns (r: Result<()>)
      modifies this`accounts
      ensures Meets(HandleClaimProtocolFees(c, old(accounts), signers, admin), r, accounts)
      ensures r.Ok? && !ProgramAddress(admin) ==>
                && Lamports(accounts, FeesVault) == c.rent(8) && Total(accounts) == Total(old(accounts))
                && Lamports(accounts, admin) - Lamports(old(accounts), admin)
                    == Lamports(old(accounts), FeesVault) - c.rent(8)
    {
      hide S.Credit, ProgramAddress, Total;
      :- Signs(admin, signers);
      :- Initialized(accounts, FeesVault);
      :- IsAdmin(c, admin);
      var minimum := c.rent(VAULT_SIZE);
      :- Need(minimum <= Lamports(accounts, FeesVault), InsufficientFunds);
      var amount := Lamports(accounts, FeesVault) - minimum;
      SetLamports(FeesVault, Lamports(accounts, FeesVault) - amount);
      r := Credit(admin, amount);
      if r.Ok? && !ProgramAddress(admin) {
        ClaimProtocolMoves(c, old(accounts), signers, admin, accounts);
      }
    }

    // ---- Program config ----

    method Whitelist(signers: set<Key>, authority: Key, validator: Key, program: Key, insert: bool, stale: Bytes)
      returns (r: Result<()>)
      modifies this`accounts
      ensures Meets(
                HandleWhitelist(c, old(accounts), signers, authority, validator, program, insert, stale), r, accounts)
      ensures r.Ok? && c.Valid() && ConfigOk(c, old(accounts), program) && !ProgramAddress(authority) ==>
                && ConfigOk(c, accounts, program) && Total(accounts) == Total(old(accounts))
                && Approved(accounts, program) == Some(Updated(Approved(old(accounts), program), validator, insert))
    {
      hide H.LoadConfig, H.StoreConfig, ProgramAddress, ConfigOk, Approved, Chain.Valid, Total;
      :- Signs(authority, signers);
      :- MayWhitelist(c, authority, program);
      var approved :- LoadConfig(authority, program);
      if insert {
        approved := approved + {validator};
      } else {
        approved := approved - {validator};
      }
      r := StoreConfig(authority, program, approved, stale);
      if r.Ok? && c.Valid() && ConfigOk(c, old(accounts), program) && !ProgramAddress(authority) {
        WhitelistEffect(c, old(accounts), signers, authority, validator, program, insert, stale, accounts);
      }
    }

    method StoreConfig(authority: Key, program: Key, approved: set<Key>, stale: Bytes) returns (r: Result<()>)
      modifies this`accounts
      ensures Meets(H.StoreConfig(c, old(accounts), authority, program, approved, stale), r, accounts)
    {
      hide S.ResizePda, EncodeConfig, Overwrite, ConfigSize;
      :- Need(|approved| < 0x1_0000_0000, InvalidAccountData);
      var _ :- ResizePda(authority, Config(program), ConfigSize(approved), stale);
      r := RewriteConfig(Config(program), c.listing(approved));
    }

    /** An absent config is created empty; a present one is parsed. */
    method LoadConfig(authority: Key, program: Key) returns (r: Result<set<Key>>)
      modifies this`accounts
      ensures match H.LoadConfig(c, old(accounts), authority, program)
              case Ok((t, approved)) => r == Ok(approved) && accounts == t
              case Err(e) => r == Err(e)
    {
      hide S.CreatePda, DecodeConfig;
      if At(accounts, Config(program)).owner == System {
        var _ :- CreatePda(Config(program), Dlp, 0, authority);
        r := Ok({});
      } else {
        r := DecodeConfig(At(accounts, Config(program)).data);
      }
    }

    // ---- Escrow accounts ----

    method TopUpEscrow(signers: set<Key>, payer: Key, of: Key, index: byte, amount: u64) returns (r: Result<()>)
      modifies this`accounts
      ensures Meets(HandleTopUpEscrow(c, old(accounts), signers, payer, of, index, amount), r, accounts)
      ensures r.Ok? && !ProgramAddress(payer) ==>
                var escrow := Escrow(of, index);
                var missing := if At(old(accounts), escrow).owner == System
                    then Shortfall(Lamports(old(accounts), escrow), c.rent(0)) else 0;
                && Lamports(accounts, escrow) == Lamports(old(accounts), escrow) + missing + amount
                && Lamports(accounts, payer) == Lamports(old(accounts), payer) - (missing + amount)
    {
      hide S.CreatePda, S.Transfer, ProgramAddress, Shortfall;
      :- Signs(payer, signers);
      var escrow := Escrow(of, index);
      if At(accounts, escrow).owner == System {
        var _ :- CreatePda(escrow, System, 0, payer);
      }
      if amount > 0 {
        var _ :- Transfer(payer, escrow, amount);
      }
      r := Ok(());
      if !ProgramAddress(payer) {
        TopUpEffect(c, old(accounts), signers, payer, of, index, amount, accounts);
      }
    }

    method DelegateEscrow(signers: set<Key>, payer: Key, of: Key, index: byte, args: DelegateArgs)
      returns (r: Result<()>)
      modifies this`accounts
      ensures Meets(HandleDelegateEscrow(c, old(accounts), signers, payer, of, index, args), r, accounts)
      ensures r.Ok? && !ProgramAddress(payer) ==>
                Opens(old(accounts), accounts, payer, Escrow(of, index), System, EscrowSeeds(of, index))
    {
      hide HandleDelegate, Opens, ProgramAddress, EscrowSeeds;
      :- Signs(payer, signers);
      :- Signs(of, signers);
      var escrow := Escrow(of, index);
      if At(accounts, escrow).owner != Dlp {
        :- Need(At(accounts, escrow).owner == System, ModifiedProgramId);
        SetOwner(escrow, Dlp);
      }
      r := Delegate(signers + {escrow}, payer, escrow, System, args.(seeds := EscrowSeeds(of, index)));
      if r.Ok? && !ProgramAddress(payer) {
        DelegateEscrowOpens(c, old(accounts), signers, payer, of, index, args, accounts);
      }
    }

    method CloseEscrow(signers: set<Key>, payer: Key, index: byte) returns (r: Result<()>)
      modifies this`accounts
      ensures Meets(HandleCloseEscrow(c, old(accounts), signers, payer, index), r, accounts)
      ensures r.Ok? && !ProgramAddress(payer) ==>
                && Lamports(accounts, Escrow(payer, index)) == 0
                && Lamports(accounts, payer)
                    == Lamports(old(accounts), payer) + Lamports(old(accounts), Escrow(payer, index))
    {
      hide S.Transfer, ProgramAddress;
      :- Signs(payer, signers);
      var escrow := Escrow(payer, index);
      :- Need(At(accounts, escrow).owner == System, InvalidAccountOwner);
      var amount := Lamports(accounts, escrow);
      if amount == 0 {
        r := Ok(());
      } else {
        r := Transfer(escrow, payer, amount);
      }
      if r.Ok? && !ProgramAddress(payer) {
        CloseEscrowEffect(c, old(accounts), signers, payer, index, accounts);
      }
    }

    // ---- Instructions ----

    /** Runs one instruction. If it fails, whatever it had written is undone. */
    method Process(signers: set<Key>, ix: Instruction) returns (r: Result<()>)
      modifies this`accounts
      ensures accounts == Exec(c, old(accounts), signers, ix)
      ensures r.Ok? <==> Succeeds(c, old(accounts), signers, ix)
      ensures match r
              case Ok(_) => Handle(c, old(accounts), signers, ix) == Ok(accounts)
              case Err(e) => Handle(c, old(accounts), signers, ix) == Err(e) && accounts == old(accounts)
      ensures Steps(c, old(accounts), Submit(ix, signers), accounts)
    {
      hide HandleDelegate, HandleCommit, HandleFinalize, HandleUndelegate, HandleInitFeesVault,
           HandleInitValidatorVault, HandleCloseValidatorVault, HandleClaimValidatorFees, HandleClaimProtocolFees,
           HandleWhitelist, HandleTopUpEscrow, HandleDelegateEscrow, HandleCloseEscrow, Steps;
      var snapshot := accounts;
      r := Dispatch(signers, ix);
      if r.Err? {
        accounts := snapshot;
      }
      ExecSteps(c, old(accounts), Submit(ix, signers));
    }

    method Dispatch(signers: set<Key>, ix: Instruction) returns (r: Result<()>)
      modifies this`accounts
      ensures Meets(Handle(c, old(accounts), signers, ix), r, accounts)
    {
      hide HandleDelegate, HandleCommit, HandleFinalize, HandleUndelegate, HandleInitFeesVault,
           HandleInitValidatorVault, HandleCloseValidatorVault, HandleClaimValidatorFees, HandleClaimProtocolFees,
           HandleWhitelist, HandleTopUpEscrow, HandleDelegateEscrow, HandleCloseEscrow;
      match ix
      case Delegate(payer, delegated, ownerProgram, args) =>
        r := Delegate(signers, payer, delegated, ownerProgram, args);
      case Commit(validator, delegated, args) => r := Commit(signers, validator, delegated, args);
      case CommitFromBuffer(validator, delegated, stateBuffer, args) =>
        r := Commit(signers, validator, delegated, args.(state := At(accounts, stateBuffer).data));
      case Finalize(validator, delegated) => r := Finalize(signers, validator, delegated);
      case Undelegate(validator, delegated, ownerProgram, reimbursement, reply) =>
        r := Undelegate(signers, validator, delegated, ownerProgram, reimbursement, reply);
      case InitFeesVault(payer) => r := InitFeesVault(signers, payer);
      case InitValidatorVault(payer, admin, identity) => r := InitValidatorVault(signers, payer, admin, identity);
      case CloseValidatorVault(payer, admin, identity) => r := CloseValidatorVault(signers, payer, admin, identity);
      case ClaimValidatorFees(validator, claim) => r := ClaimValidatorFees(signers, validator, claim);
      case ClaimProtocolFees(admin) => r := ClaimProtocolFees(signers, admin);
      case Whitelist(authority, validator, program, insert, stale) =>
        r := Whitelist(signers, authority, validator, program, insert, stale);
      case TopUpEscrow(payer, of, index, amount) => r := TopUpEscrow(signers, payer, of, index, amount);
      case DelegateEscrow(payer, of, index, args) => r := DelegateEscrow(signers, payer, of, index, args);
      case CloseEscrow(payer, index) => r := CloseEscrow(signers, payer, index);
    }
  }

  lemma SharesPositive(balance: nat, percentage: nat, n: nat)
    requires n >= 1 && percentage <= 100
    ensures forall i | 0 <= i < n :: Shares(balance, percentage, n)[i] >= 0
  {
    SharesTelescope(balance, percentage, n);
  }

  lemma CreditNext(s: Store, keys: seq<Key>, amounts: seq<int>, i: nat)
    requires |keys| == |amounts| && i < |keys| && CreditAll(s, keys[..i], amounts[..i]).Ok?
    ensures CreditAll(s, keys[..i + 1], amounts[..i + 1])
            == CreditOrFail(CreditAll(s, keys[..i], amounts[..i]).value, keys[i], amounts[i])
  {
    assert keys[..i + 1][..i] == keys[..i] && amounts[..i + 1][..i] == amounts[..i];
  }

  lemma {:induction false} CreditPrefixFails(s: Store, keys: seq<Key>, amounts: seq<int>, i: nat)
    requires |keys| == |amounts| && i <= |keys| && CreditAll(s, keys[..i], amounts[..i]).Err?
    ensures CreditAll(s, keys, amounts) == CreditAll(s, keys[..i], amounts[..i])
  {
    if i < |keys| {
      var n := |keys| - 1;
      assert keys[..n][..i] == keys[..i] && amounts[..n][..i] == amounts[..i];
      CreditPrefixFails(s, keys[..n], amounts[..n], i);
    } else {
      assert keys[..i] == keys && amounts[..i] == amounts;
    }
  }

  lemma CreatedSize(rent: nat -> u64, s: Store, target: Key, owner: Key, space: nat, payer: Key, t: Store)
    requires S.CreatePda(rent, s, target, owner, space, payer) == Ok(t)
    ensures |At(t, target).data| == space
  {
    hide S.CreatePda, AllocateAndAssign, S.Transfer, S.Credit, Zeroes, Total, Frame;
    var s1, missing := CreatePdaStages(rent, s, target, owner, space, payer, t);
    if Lamports(s, target) == 0 {
      AllocateEffect(s, target, space, owner, s1);
      TransferWrites(s1, payer, target, missing, t);
      CreditWrites(s1[payer := At(s1, payer).(lamports := Lamports(s1, payer) - missing)], target, missing, t);
    } else {
      AllocateEffect(s1, target, space, owner, t);
    }
  }

  lemma RecordBodySize(r: DelegationRecord)
    ensures |RecordBody(r)| == RECORD_SIZE - 8
  {}

  lemma CommitRecordBodySize(r: CommitRecordData)
    ensures |CommitRecordBody(r)| == COMMIT_RECORD_SIZE - 8
  {}
}
