/** What undelegate does: both ways of handing the account back, and what happens to the lamports. */
module UndelegateEffects {
  import opened Outcomes
  import opened Octets
  import opened Layouts
  import opened Store
  import opened Fees
  import opened Handlers
  import opened Sessions
  import opened Invariants

  // ---- Closing record and metadata ----

  lemma CleanupEffect(s: Store, d: Key, reimbursement: Key, v: Key, t: Store)
    requires Cleanup(s, d, reimbursement, v) == Ok(t)
    requires !ProgramAddress(reimbursement) && Delegatable(d)
    ensures Total(t) == Total(s) && Frame(s, t, SessionKeys(d))
    ensures At(t, Record(d)) == EMPTY && At(t, Metadata(d)) == EMPTY
    ensures forall k {:trigger At(t, k)} ::
              k != Record(d) && k != Metadata(d) && k != reimbursement && k != ValidatorVault(v) && k != FeesVault ==>
                  At(t, k) == At(s, k)
    ensures At(t, reimbursement).owner == At(s, reimbursement).owner
            && At(t, reimbursement).data == At(s, reimbursement).data
    ensures Lamports(s, reimbursement) <= Lamports(t, reimbursement)
  {
    hide ProgramAddress, Delegatable, Total, Frame, SessionKeys, ClosePdaWithFees;
    SessionAddresses(d, v);
    var vaults := [ValidatorVault(v), FeesVault];
    var s1 := ClosePdaWithFees(s, Record(d), reimbursement, vaults, RENT_FEES_PERCENTAGE).value;
    CloseWithFeesEffect(s, Record(d), reimbursement, vaults, RENT_FEES_PERCENTAGE, s1);
    CloseWithFeesEffect(s1, Metadata(d), reimbursement, vaults, RENT_FEES_PERCENTAGE, t);
    FrameOne(s, s1, Record(d), d);
    FrameOne(s1, t, Metadata(d), d);
    FrameThen(s, s1, t, SessionKeys(d));
    forall k | k != Record(d) && k != Metadata(d) && k != reimbursement && k != ValidatorVault(v) && k != FeesVault
      ensures At(t, k) == At(s, k)
    {
      assert At(s1, k) == At(s, k);
    }
    DestinationKept(s, Record(d), reimbursement, ValidatorVault(v), FeesVault, s1);
    DestinationKept(s1, Metadata(d), reimbursement, ValidatorVault(v), FeesVault, t);
  }

  lemma DestinationKept(s: Store, target: Key, destination: Key, v: Key, f: Key, t: Store)
    requires ClosePdaWithFees(s, target, destination, [v, f], RENT_FEES_PERCENTAGE) == Ok(t)
    requires destination !in {target, v, f} && target !in {v, f} && v != f
    ensures At(t, destination).owner == At(s, destination).owner && At(t, destination).data == At(s, destination).data
    ensures Lamports(t, destination) == Lamports(s, destination) + PayerPart(Lamports(s, target))
  {
    hide Total, Frame;
    SessionFeeSplit(s, target, destination, v, f, t);
    var balance := Lamports(s, target);
    var shares := Shares(balance, RENT_FEES_PERCENTAGE, 2);
    var s1 := CreditAll(s, [v, f], shares).value;
    SharesTelescope(balance, RENT_FEES_PERCENTAGE, 2);
    CreditAllEffect(s, [v, f], shares, s1);
    assert At(s1, destination) == At(s, destination);
  }

  // ---- The call into the owner program ----

  /** Whatever the owner program does within the runtime's rules, protected accounts stay and nothing is lost. */
  lemma CallEffect(s: Store, d: Key, v: Key, reply: CpiReply, t: Store)
    requires CallOwnerProgram(s, d, UndelegateBuffer(d), v, reply) == Ok(t)
    requires !ProgramAddress(v) && Delegatable(d)
    ensures Total(t) == Total(s) && Frame(s, t, {})
    ensures v != d ==> Lamports(t, d) + Lamports(t, UndelegateBuffer(d)) + Lamports(t, v)
                       == Lamports(s, d) + Lamports(s, UndelegateBuffer(d)) + Lamports(s, v)
    ensures forall k {:trigger At(t, k)} :: k != d && k != UndelegateBuffer(d) && k != v ==> At(t, k) == At(s, k)
    ensures reply.CpiReturns? && At(t, UndelegateBuffer(d)) == reply.buffer
  {
    hide ProgramAddress, Delegatable, Total;
    SessionAddresses(d, v);
    var buffer := UndelegateBuffer(d);
    var s1 := s[d := reply.delegated];
    var s2 := s1[buffer := reply.buffer];
    TotalUpdate(s, d, reply.delegated);
    TotalUpdate(s1, buffer, reply.buffer);
    TotalUpdate(s2, v, reply.validator);
  }

  lemma ReopenStages(c: Chain, s: Store, v: Key, d: Key, reply: CpiReply, t: Store)
    returns (s1: Store, s2: Store, minimum: u64)
    requires ReopenByCpi(c, s, v, d, reply) == Ok(t)
    ensures ClosePda(s, d, v) == Ok(s1)
    ensures CallOwnerProgram(s1, d, UndelegateBuffer(d), v, reply) == Ok(s2)
    ensures minimum == c.rent(|At(s2, d).data|) && minimum <= Lamports(s, d)
    ensures Lamports(s1, v) == Lamports(s2, v) + minimum
    ensures At(s2, d).data == At(s2, UndelegateBuffer(d)).data
    ensures Transfer(s2, v, d, Lamports(s, d) - minimum) == Ok(t)
  {
    hide ClosePda, CallOwnerProgram, Transfer;
    s1 := ClosePda(s, d, v).value;
    s2 := CallOwnerProgram(s1, d, UndelegateBuffer(d), v, reply).value;
    minimum := c.rent(|At(s2, d).data|);
  }

  /** The account comes back with the bytes of the buffer, which the owner program could not touch. Closing it to
      itself would destroy its lamports, but then the last transfer finds none: that cannot succeed with a balance. */
  lemma ReopenEffect(c: Chain, s: Store, v: Key, d: Key, reply: CpiReply, t: Store)
    requires ReopenByCpi(c, s, v, d, reply) == Ok(t)
    requires !ProgramAddress(v) && Delegatable(d) && Owned(s, UndelegateBuffer(d))
    ensures Total(t) == Total(s)
    ensures v == d ==> Lamports(s, d) == 0
    ensures Frame(s, t, SessionKeys(d))
    ensures At(t, d).data == At(s, UndelegateBuffer(d)).data
    ensures forall k {:trigger At(t, k)} :: k != d && k != UndelegateBuffer(d) && k != v ==> At(t, k) == At(s, k)
  {
    hide ProgramAddress, Delegatable, Total, Frame, SessionKeys, ReopenByCpi, ClosePda, CallOwnerProgram, Transfer;
    SessionAddresses(d, v);
    var s1, s2, minimum := ReopenStages(c, s, v, d, reply, t);
    ClosePdaEffect(s, d, v, s1);
    CallEffect(s1, d, v, reply, s2);
    TransferEffect(s2, v, d, Lamports(s, d) - minimum, t);
    FrameOne(s, s1, d, d);
    FrameNone(s1, s2, d);
    FrameNone(s2, t, d);
    FrameThen(s, s1, s2, SessionKeys(d));
    FrameThen(s, s2, t, SessionKeys(d));
    KeptBy(s1, s2, {}, UndelegateBuffer(d));
    forall k | k != d && k != UndelegateBuffer(d) && k != v ensures At(t, k) == At(s, k) {
      assert At(s2, k) == At(s1, k) == At(s, k);
    }
  }

  /** Between the account, the validator and the buffer nothing is gained or lost; and if the owner program leaves
      the buffer's lamports alone, the account ends with exactly what it had. */
  lemma ReopenBalances(c: Chain, s: Store, v: Key, d: Key, reply: CpiReply, t: Store)
    requires ReopenByCpi(c, s, v, d, reply) == Ok(t)
    requires !ProgramAddress(v) && Delegatable(d) && v != d && Owned(s, UndelegateBuffer(d))
    ensures var b := UndelegateBuffer(d);
            && Lamports(t, d) + Lamports(t, b) == Lamports(s, d) + Lamports(s, b)
            && Lamports(t, v) == Lamports(s, v) && Lamports(s, b) <= Lamports(t, b)
            && reply.CpiReturns? && Lamports(t, b) == reply.buffer.lamports
  {
    hide ProgramAddress, Delegatable, Total, Frame, ReopenByCpi, ClosePda, CallOwnerProgram, Transfer;
    SessionAddresses(d, v);
    var s1, s2, minimum := ReopenStages(c, s, v, d, reply, t);
    ClosePdaEffect(s, d, v, s1);
    CallEffect(s1, d, v, reply, s2);
    KeptBy(s1, s2, {}, UndelegateBuffer(d));
    TransferEffect(s2, v, d, Lamports(s, d) - minimum, t);
  }

  /** What the rent payer gets back from the record and the metadata: nine tenths of each, rounded up. */
  function Payback(s: Store, d: Key): nat {
    PayerPart(Lamports(s, Record(d))) + PayerPart(Lamports(s, Metadata(d)))
  }

  lemma SamePayback(s: Store, t: Store, d: Key)
    requires At(t, Record(d)) == At(s, Record(d)) && At(t, Metadata(d)) == At(s, Metadata(d))
    ensures Payback(t, d) == Payback(s, d)
  {}

  lemma CleanupBalances(s: Store, d: Key, reimbursement: Key, v: Key, t: Store)
    requires Cleanup(s, d, reimbursement, v) == Ok(t)
    requires !ProgramAddress(reimbursement) && Delegatable(d)
    ensures var x, y := Lamports(s, Record(d)), Lamports(s, Metadata(d));
            && Lamports(t, reimbursement) == Lamports(s, reimbursement) + Payback(s, d)
            && Lamports(t, ValidatorVault(v)) == Lamports(s, ValidatorVault(v)) + VaultPart(x) + VaultPart(y)
            && Lamports(t, FeesVault) == Lamports(s, FeesVault) + ProtocolPart(x) + ProtocolPart(y)
  {
    hide ProgramAddress, Delegatable, Total, Frame, ClosePdaWithFees, PayerPart, VaultPart, ProtocolPart;
    SessionAddresses(d, v);
    var vaults := [ValidatorVault(v), FeesVault];
    var s1 := ClosePdaWithFees(s, Record(d), reimbursement, vaults, RENT_FEES_PERCENTAGE).value;
    CloseWithFeesEffect(s, Record(d), reimbursement, vaults, RENT_FEES_PERCENTAGE, s1);
    assert At(s1, Metadata(d)) == At(s, Metadata(d));
    SessionFeeSplit(s, Record(d), reimbursement, ValidatorVault(v), FeesVault, s1);
    SessionFeeSplit(s1, Metadata(d), reimbursement, ValidatorVault(v), FeesVault, t);
  }

  // ---- The whole instruction ----

  /** Nothing is handed back before a commit allowed it, while a commit is pending, to another program, or with
      the rent going to anyone but its payer. */
  lemma UndelegateGates(c: Chain, s: Store, signers: set<Key>, v: Key, d: Key, ownerProgram: Key, reimbursement: Key,
                        reply: CpiReply, t: Store)
    requires HandleUndelegate(c, s, signers, v, d, ownerProgram, reimbursement, reply) == Ok(t)
    requires SessionOk(s, d)
    ensures Delegatable(d) && !ProgramAddress(reimbursement)
    ensures !Fresh(s, Record(d)) && Fresh(s, CommitState(d)) && Fresh(s, CommitRecord(d)) && Owned(s, d)
    ensures Fresh(s, UndelegateBuffer(d))
    ensures Abs(s, d).Live? && Abs(s, d).flag && Abs(s, d).pending.None?
    ensures Abs(s, d).owner == ownerProgram && Abs(s, d).rentPayer == reimbursement && Abs(s, d).data == At(s, d).data
  {
    hide Cleanup, ReopenByCpi, CreatePda, ClosePda, ProgramAddress, Delegatable, DecodeRecord, DecodeMetadata,
         DecodeCommitRecord, EncodeRecord, EncodeMetadata, Encodable;
  }

  lemma FailedCall(c: Chain, s: Store, v: Key, d: Key)
    ensures ReopenByCpi(c, s, v, d, CpiFails).Err?
  {}

  lemma UndelegateStages(c: Chain, s: Store, signers: set<Key>, v: Key, d: Key, ownerProgram: Key, reimbursement: Key,
                         reply: CpiReply, t: Store) returns (s1: Store, s3: Store, s4: Store)
    requires HandleUndelegate(c, s, signers, v, d, ownerProgram, reimbursement, reply) == Ok(t)
    ensures At(s, d).data == [] ==> s4 == s[d := At(s, d).(owner := ownerProgram)]
    ensures At(s, d).data != [] ==>
              var buffer := UndelegateBuffer(d);
              && CreatePda(c.rent, s, buffer, Dlp, |At(s, d).data|, v) == Ok(s1)
              && ReopenByCpi(c, SetData(s1, buffer, At(s, d).data), v, d, reply) == Ok(s3)
              && ClosePda(s3, buffer, v) == Ok(s4) && Callable(ownerProgram)
    ensures Cleanup(s4, d, reimbursement, v) == Ok(t)
  {
    hide Cleanup, ReopenByCpi, CreatePda, ClosePda, DecodeRecord, DecodeMetadata, Callable;
    s1, s3, s4 := s, s, s[d := At(s, d).(owner := ownerProgram)];
    if At(s, d).data != [] {
      var buffer := UndelegateBuffer(d);
      s1 := CreatePda(c.rent, s, buffer, Dlp, |At(s, d).data|, v).value;
      FailedCall(c, SetData(s1, buffer, At(s, d).data), v, d);
      s3 := ReopenByCpi(c, SetData(s1, buffer, At(s, d).data), v, d, reply).value;
      s4 := ClosePda(s3, buffer, v).value;
    }
  }

  /** Staging the bytes, letting the owner program reopen the account, and closing the buffer. */
  lemma ReopenedThroughBuffer(c: Chain, s: Store, v: Key, d: Key, reply: CpiReply, s1: Store, s3: Store, s4: Store)
    requires CreatePda(c.rent, s, UndelegateBuffer(d), Dlp, |At(s, d).data|, v) == Ok(s1)
    requires ReopenByCpi(c, SetData(s1, UndelegateBuffer(d), At(s, d).data), v, d, reply) == Ok(s3)
    requires ClosePda(s3, UndelegateBuffer(d), v) == Ok(s4)
    requires !ProgramAddress(v) && Delegatable(d) && Owned(s, d)
    ensures Total(s4) == Total(s)
    ensures Frame(s, s4, SessionKeys(d))
    ensures At(s4, d).data == At(s, d).data && At(s4, UndelegateBuffer(d)) == EMPTY
    ensures forall k {:trigger At(s4, k)} :: k != d && k != UndelegateBuffer(d) && k != v ==> At(s4, k) == At(s, k)
  {
    hide ProgramAddress, Delegatable, Total, Frame, SessionKeys, CreatePda, ReopenByCpi, ClosePda, Zeroes, Shortfall;
    SessionAddresses(d, v);
    var buffer := UndelegateBuffer(d);
    CreatedAndWritten(c.rent, s, buffer, Dlp, |At(s, d).data|, v, s1, At(s, d).data);
    OwnedNeverPays(c.rent, s, buffer, Dlp, |At(s, d).data|, v, s1, d);
    var s2 := SetData(s1, buffer, At(s, d).data);
    assert At(s2, d) == At(s, d);
    ReopenEffect(c, s2, v, d, reply, s3);
    ClosePdaEffect(s3, buffer, v, s4);
    FrameOne(s, s2, buffer, d);
    FrameOne(s3, s4, buffer, d);
    FrameThen(s, s2, s3, SessionKeys(d));
    FrameThen(s, s3, s4, SessionKeys(d));
    forall k | k != d && k != buffer && k != v ensures At(s4, k) == At(s, k) {
      assert At(s4, k) == At(s3, k) == At(s2, k);
    }
  }

  /** A successful undelegation ends the session and hands back exactly the bytes of the account. No lamports are lost,
      not even if the account is its own validator. */
  lemma UndelegateEffect(c: Chain, s: Store, signers: set<Key>, v: Key, d: Key, ownerProgram: Key, reimbursement: Key,
                         reply: CpiReply, t: Store)
    requires HandleUndelegate(c, s, signers, v, d, ownerProgram, reimbursement, reply) == Ok(t)
    requires SessionOk(s, d) && !ProgramAddress(v)
    ensures Total(t) == Total(s)
    ensures Frame(s, t, SessionKeys(d))
    ensures At(t, d).data == At(s, d).data
    ensures SessionOk(t, d) && Abs(t, d) == Idle
    ensures Step(Abs(s, d), Undelegated(At(t, d).data)) == Some(Idle)
  {
    hide HandleUndelegate, Cleanup, ReopenByCpi, CreatePda, ClosePda, ProgramAddress, Delegatable, Total, Frame,
         SessionKeys, SessionOk, Abs;
    UndelegateGates(c, s, signers, v, d, ownerProgram, reimbursement, reply, t);
    var s1, s3, s4 := UndelegateStages(c, s, signers, v, d, ownerProgram, reimbursement, reply, t);
    SessionAddresses(d, v);
    if At(s, d).data == [] {
      RewriteEffect(s, d, At(s4, d));
      FrameOne(s, s4, d, d);
    } else {
      ReopenedThroughBuffer(c, s, v, d, reply, s1, s3, s4);
    }
    assert At(s4, CommitState(d)) == At(s, CommitState(d)) && At(s4, CommitRecord(d)) == At(s, CommitRecord(d));
    assert Fresh(s4, UndelegateBuffer(d));
    CleanupEffect(s4, d, reimbursement, v, t);
    FrameThen(s, s4, t, SessionKeys(d));
    SessionClosed(s, t, d);
  }

  lemma SessionClosed(s: Store, t: Store, d: Key)
    requires SessionOk(s, d) && Abs(s, d).Live? && Abs(s, d).flag && Abs(s, d).pending.None?
    requires Abs(s, d).data == At(t, d).data
    requires At(t, Record(d)) == EMPTY && At(t, Metadata(d)) == EMPTY
    requires Fresh(t, CommitState(d)) && Fresh(t, CommitRecord(d)) && Fresh(t, UndelegateBuffer(d))
    ensures SessionOk(t, d) && Abs(t, d) == Idle
    ensures Step(Abs(s, d), Undelegated(At(t, d).data)) == Some(Idle)
  {
    hide LiveOk, RecordOf, MetadataOf, CommitOf;
  }

  // ---- Where the lamports go ----

  /** The lamports of the undelegate buffer once the bytes are staged in it. */
  function BufferHolds(c: Chain, s: Store, d: Key): nat {
    Lamports(s, UndelegateBuffer(d)) + Shortfall(Lamports(s, UndelegateBuffer(d)), c.rent(|At(s, d).data|))
  }

  /** Through the buffer and back: the validator advances what the buffer lacks and gets all of it, so only what the
      owner program put into the buffer moves from the account to the validator. */
  lemma ReopenedBalances(c: Chain, s: Store, v: Key, d: Key, reply: CpiReply, s1: Store, s3: Store, s4: Store)
    requires CreatePda(c.rent, s, UndelegateBuffer(d), Dlp, |At(s, d).data|, v) == Ok(s1)
    requires ReopenByCpi(c, SetData(s1, UndelegateBuffer(d), At(s, d).data), v, d, reply) == Ok(s3)
    requires ClosePda(s3, UndelegateBuffer(d), v) == Ok(s4)
    requires !ProgramAddress(v) && Delegatable(d) && v != d
    ensures Lamports(s4, d) + Lamports(s4, v) == Lamports(s, d) + Lamports(s, v) + Lamports(s, UndelegateBuffer(d))
    ensures reply.CpiReturns? && BufferHolds(c, s, d) <= reply.buffer.lamports
    ensures Lamports(s4, d) == Lamports(s, d) - (reply.buffer.lamports - BufferHolds(c, s, d))
  {
    hide CreatePda, ReopenByCpi, ClosePda, ProgramAddress, Delegatable, Total, Frame, Zeroes, Shortfall;
    SessionAddresses(d, v);
    var buffer := UndelegateBuffer(d);
    CreatedAndWritten(c.rent, s, buffer, Dlp, |At(s, d).data|, v, s1, At(s, d).data);
    ShortfallFills(Lamports(s, buffer), c.rent(|At(s, d).data|));
    var s2 := SetData(s1, buffer, At(s, d).data);
    assert At(s2, d) == At(s, d);
    ReopenBalances(c, s2, v, d, reply, s3);
    ClosePdaEffect(s3, buffer, v, s4);
    assert At(s4, d) == At(s3, d);
  }

  /** Handing an account with data back is neutral between it and the validator: together they end with what they
      had and what already lay in the buffer, plus the rent payer's refund if the payer is one of them. The account
      itself ends with exactly what it had, less what the owner program put into the buffer. */
  lemma UndelegateBalances(c: Chain, s: Store, signers: set<Key>, v: Key, d: Key, ownerProgram: Key, reimbursement: Key,
                           reply: CpiReply, t: Store)
    requires HandleUndelegate(c, s, signers, v, d, ownerProgram, reimbursement, reply) == Ok(t)
    requires SessionOk(s, d) && !ProgramAddress(v) && v != d && At(s, d).data != []
    ensures Lamports(t, d) + Lamports(t, v)
            == Lamports(s, d) + Lamports(s, v) + Lamports(s, UndelegateBuffer(d))
               + (if reimbursement == d || reimbursement == v then Payback(s, d) else 0)
    ensures reply.CpiReturns? && BufferHolds(c, s, d) <= reply.buffer.lamports
    ensures Lamports(t, d) == Lamports(s, d) - (reply.buffer.lamports - BufferHolds(c, s, d))
                              + (if reimbursement == d then Payback(s, d) else 0)
  {
    hide Payback, SessionKeys, BufferHolds, HandleUndelegate, Cleanup, ReopenByCpi, CreatePda, ClosePda,
         ProgramAddress, Delegatable, Total, Frame, SessionOk, Abs;
    UndelegateGates(c, s, signers, v, d, ownerProgram, reimbursement, reply, t);
    var s1, s3, s4 := UndelegateStages(c, s, signers, v, d, ownerProgram, reimbursement, reply, t);
    SessionAddresses(d, v);
    ReopenedBalances(c, s, v, d, reply, s1, s3, s4);
    assert Payback(s4, d) == Payback(s, d) by {
      ReopenedThroughBuffer(c, s, v, d, reply, s1, s3, s4);
      SamePayback(s, s4, d);
    }
    CleanupEffect(s4, d, reimbursement, v, t);
    CleanupBalances(s4, d, reimbursement, v, t);
    assert reimbursement != d ==> At(t, d) == At(s4, d);
    assert reimbursement != v ==> At(t, v) == At(s4, v);
  }

  /** An account without data is handed back on the spot: the owner program owns it again and its balance is
      untouched. */
  lemma UndelegateEmpty(c: Chain, s: Store, signers: set<Key>, v: Key, d: Key, ownerProgram: Key, reimbursement: Key,
                        reply: CpiReply, t: Store)
    requires HandleUndelegate(c, s, signers, v, d, ownerProgram, reimbursement, reply) == Ok(t)
    requires SessionOk(s, d) && At(s, d).data == []
    ensures At(t, d).owner == Abs(s, d).owner && At(t, d).data == []
    ensures Lamports(t, d) == Lamports(s, d) + (if reimbursement == d then Payback(s, d) else 0)
  {
    hide PayerPart, VaultPart, ProtocolPart, HandleUndelegate, Cleanup, ProgramAddress, Delegatable, Total, Frame,
         SessionOk, Abs;
    UndelegateGates(c, s, signers, v, d, ownerProgram, reimbursement, reply, t);
    var s1, s3, s4 := UndelegateStages(c, s, signers, v, d, ownerProgram, reimbursement, reply, t);
    SessionAddresses(d, v);
    CleanupEffect(s4, d, reimbursement, v, t);
    CleanupBalances(s4, d, reimbursement, v, t);
    assert At(s4, Record(d)) == At(s, Record(d)) && At(s4, Metadata(d)) == At(s, Metadata(d));
    assert reimbursement != d ==> At(t, d) == At(s4, d);
  }

  /** On both paths the two vaults get their shares of the record's and of the metadata's balance. */
  lemma UndelegateFees(c: Chain, s: Store, signers: set<Key>, v: Key, d: Key, ownerProgram: Key, reimbursement: Key,
                       reply: CpiReply, t: Store)
    requires HandleUndelegate(c, s, signers, v, d, ownerProgram, reimbursement, reply) == Ok(t)
    requires SessionOk(s, d) && !ProgramAddress(v)
    ensures var x, y := Lamports(s, Record(d)), Lamports(s, Metadata(d));
            && Lamports(t, ValidatorVault(v)) == Lamports(s, ValidatorVault(v)) + VaultPart(x) + VaultPart(y)
            && Lamports(t, FeesVault) == Lamports(s, FeesVault) + ProtocolPart(x) + ProtocolPart(y)
    ensures reimbursement != v && reimbursement != d ==>
              Lamports(t, reimbursement) == Lamports(s, reimbursement) + Payback(s, d)
  {
    hide PayerPart, VaultPart, ProtocolPart, HandleUndelegate, Cleanup, ReopenByCpi, CreatePda, ClosePda,
         ProgramAddress, Delegatable, Total, Frame, SessionOk, Abs, SessionKeys;
    UndelegateGates(c, s, signers, v, d, ownerProgram, reimbursement, reply, t);
    var s1, s3, s4 := UndelegateStages(c, s, signers, v, d, ownerProgram, reimbursement, reply, t);
    SessionAddresses(d, v);
    if At(s, d).data != [] {
      ReopenedThroughBuffer(c, s, v, d, reply, s1, s3, s4);
    }
    assert At(s4, Record(d)) == At(s, Record(d)) && At(s4, Metadata(d)) == At(s, Metadata(d));
    assert At(s4, ValidatorVault(v)) == At(s, ValidatorVault(v)) && At(s4, FeesVault) == At(s, FeesVault);
    assert reimbursement != v && reimbursement != d ==> At(s4, reimbursement) == At(s, reimbursement);
    CleanupBalances(s4, d, reimbursement, v, t);
  }

  /** Nothing else changes: an account without data is handed back without the validator or the buffer. */
  lemma UndelegateRest(c: Chain, s: Store, signers: set<Key>, v: Key, d: Key, ownerProgram: Key, reimbursement: Key,
                       reply: CpiReply, t: Store)
    requires HandleUndelegate(c, s, signers, v, d, ownerProgram, reimbursement, reply) == Ok(t)
    requires SessionOk(s, d) && !ProgramAddress(v)
    ensures At(t, Record(d)) == Account(System, 0, []) && At(t, Metadata(d)) == Account(System, 0, [])
    ensures forall k {:trigger At(t, k)} ::
              k !in {d, Record(d), Metadata(d), reimbursement, ValidatorVault(v), FeesVault}
              && (At(s, d).data != [] ==> k != v && k != UndelegateBuffer(d)) ==>
                At(t, k) == At(s, k)
    ensures At(s, d).data != [] ==> At(t, UndelegateBuffer(d)) == Account(System, 0, [])
  {
    hide HandleUndelegate, Cleanup, ReopenByCpi, CreatePda, ClosePda, ProgramAddress, Delegatable, Total, Frame,
         SessionOk, Abs, SessionKeys;
    UndelegateGates(c, s, signers, v, d, ownerProgram, reimbursement, reply, t);
    var s1, s3, s4 := UndelegateStages(c, s, signers, v, d, ownerProgram, reimbursement, reply, t);
    SessionAddresses(d, v);
    if At(s, d).data != [] {
      ReopenedThroughBuffer(c, s, v, d, reply, s1, s3, s4);
    }
    CleanupEffect(s4, d, reimbursement, v, t);
    forall k | k !in {d, Record(d), Metadata(d), reimbursement, ValidatorVault(v), FeesVault}
               && (At(s, d).data != [] ==> k != v && k != UndelegateBuffer(d))
      ensures At(t, k) == At(s, k)
    {
      assert At(t, k) == At(s4, k) == At(s, k);
    }
    BufferApart(d, v);
    assert At(t, UndelegateBuffer(d)) == At(s4, UndelegateBuffer(d));
  }

  lemma BufferApart(d: Key, v: Key)
    ensures UndelegateBuffer(d) !in {Record(d), Metadata(d), ValidatorVault(v), FeesVault}
    ensures ProgramAddress(UndelegateBuffer(d))
  {}

  /** The runtime lets nobody write to a closed account that is not signed for, so one with data cannot be handed back
      if no program signs for it or its owner program cannot be called; nor if it is its own validator, because then the
      last transfer would take lamports from an account with data. */
  lemma DataRefused(c: Chain, s: Store, signers: set<Key>, v: Key, d: Key, ownerProgram: Key, reimbursement: Key,
                    reply: CpiReply)
    requires Delegatable(d) && !ProgramAddress(v) && At(s, d).data != [] && (v == d || !Reopenable(d, ownerProgram))
    ensures HandleUndelegate(c, s, signers, v, d, ownerProgram, reimbursement, reply).Err?
  {
    hide Cleanup, CreatePda, ClosePda, CallOwnerProgram, Transfer, DecodeRecord, DecodeMetadata, Total, Frame,
         ProgramSigns, ProgramAddress, Delegatable, Sealed;
    var handed := HandleUndelegate(c, s, signers, v, d, ownerProgram, reimbursement, reply);
    if handed.Ok? {
      var s1, s3, s4 := UndelegateStages(c, s, signers, v, d, ownerProgram, reimbursement, reply, handed.value);
      SessionAddresses(d, v);
      var buffer := UndelegateBuffer(d);
      CreatedAndWritten(c.rent, s, buffer, Dlp, |At(s, d).data|, v, s1, At(s, d).data);
      var s2 := SetData(s1, buffer, At(s, d).data);
      var r1, r2, minimum := ReopenStages(c, s2, v, d, reply, s3);
      ClosePdaEffect(s2, d, v, r1);
      CallEffect(r1, d, v, reply, r2);
      KeptBy(r1, r2, {}, buffer);
      if v == d {
        TransferNeedsNoData(r2, v, d, Lamports(s2, d) - minimum);
      } else {
        ClosedStays(r1, d, v, reply, r2);
      }
      assert false;
    }
  }

  lemma TransferNeedsNoData(s: Store, from: Key, to: Key, amount: u64)
    requires Transfer(s, from, to, amount).Ok?
    ensures At(s, from).data == []
  {}

  lemma ClosedStays(s: Store, d: Key, v: Key, reply: CpiReply, t: Store)
    requires CallOwnerProgram(s, d, UndelegateBuffer(d), v, reply) == Ok(t) && v != d
    requires At(s, d) == EMPTY && !ProgramSigns(d)
    ensures At(t, d).data == []
  {}
}
