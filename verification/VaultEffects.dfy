/** Fee vaults: opening, closing and claiming keep the rent floor, and where claimed fees go. */
module VaultEffects {
  import opened Outcomes
  import opened Octets
  import opened Store
  import opened Fees
  import opened Handlers
  import opened Invariants

  /** A vault as it starts: eight zero bytes, and at least the rent. */
  ghost predicate NewVault(c: Chain, s: Store, vault: Key) {
    && Owned(s, vault) && c.rent(8) <= Lamports(s, vault)
    && |At(s, vault).data| == 8 && forall i :: 0 <= i < 8 ==> At(s, vault).data[i] == B(0)
  }

  /** Creating a vault opens it. */
  lemma VaultOpened(c: Chain, s: Store, vault: Key, payer: Key, t: Store)
    requires CreatePda(c.rent, s, vault, Dlp, 8, payer) == Ok(t)
    requires ProgramAddress(vault) && !ProgramAddress(payer)
    ensures Total(t) == Total(s) && Frame(s, t, {vault}) && VaultOk(c, t, vault)
    ensures NewVault(c, t, vault)
  {
    hide ProgramAddress, Total, Frame, CreatePda;
    CreatePdaEffect(c.rent, s, vault, Dlp, 8, payer, t);
  }

  lemma CloseValidatorVaultEffect(c: Chain, s: Store, signers: set<Key>, payer: Key, admin: Key, identity: Key,
                                  t: Store)
    requires HandleCloseValidatorVault(c, s, signers, payer, admin, identity) == Ok(t)
    ensures Total(t) == Total(s) && Frame(s, t, {ValidatorVault(identity)}) && Fresh(t, ValidatorVault(identity))
    ensures Lamports(t, identity) == Lamports(s, identity) + Lamports(s, ValidatorVault(identity))
  {
    hide ProgramAddress, Total, Frame, ClosePda;
    assert identity != ValidatorVault(identity) by { NotItsOwnVault(identity); }
    ClosePdaEffect(s, ValidatorVault(identity), identity, t);
  }

  lemma NotItsOwnVault(v: Key)
    ensures v != ValidatorVault(v)
  {
    assert v < ValidatorVault(v);
  }

  /** What a claim moves: at most what lies above the rent minimum; the protocol gets a tenth if ten times it fits. */
  lemma ClaimStages(c: Chain, s: Store, signers: set<Key>, v: Key, claim: Option<u64>, t: Store)
    returns (claimed: u64, fees: u64)
    requires HandleClaimValidatorFees(c, s, signers, v, claim) == Ok(t)
    requires c.rent(8) <= Lamports(s, ValidatorVault(v))
    ensures claimed + c.rent(8) <= Lamports(s, ValidatorVault(v))
    ensures if claim.Some? then claimed == claim.value
            else claimed + c.rent(8) == Lamports(s, ValidatorVault(v))
    ensures fees <= claimed && (claimed * 10 < U64_LIMIT ==> fees == claimed / 10)
    ensures MoveFees(s, v, claimed, fees) == Ok(t)
  {
    hide MoveFees;
    claimed := match claim case None => Lamports(s, ValidatorVault(v)) - c.rent(8) case Some(a) => a;
    fees := PlainMul(c, claimed, PROTOCOL_FEES_PERCENTAGE).value / 100;
    assert claimed * 10 / 100 == claimed / 10;
  }

  lemma VaultAddresses(v: Key)
    ensures ProgramAddress(ValidatorVault(v)) && ProgramAddress(FeesVault) && FeesVault != ValidatorVault(v)
  {}

  lemma MoveFeesEffect(s: Store, v: Key, claimed: u64, fees: u64, t: Store)
    requires MoveFees(s, v, claimed, fees) == Ok(t) && fees <= claimed && !ProgramAddress(v)
    ensures Total(t) == Total(s) && Frame(s, t, {ValidatorVault(v)})
    ensures Lamports(t, ValidatorVault(v)) == Lamports(s, ValidatorVault(v)) - claimed
    ensures Lamports(t, FeesVault) == Lamports(s, FeesVault) + fees
    ensures Lamports(t, v) == Lamports(s, v) + (claimed - fees)
    ensures At(t, ValidatorVault(v)).owner == At(s, ValidatorVault(v)).owner
    ensures forall k {:trigger At(t, k)} :: k != v && k != FeesVault && k != ValidatorVault(v) ==> At(t, k) == At(s, k)
  {
    hide Total, ProgramAddress, Credit, Frame;
    var vault := ValidatorVault(v);
    VaultAddresses(v);
    var s1 := Credit(s, FeesVault, fees).value;
    CreditEffect(s, FeesVault, fees, s1);
    CreditWrites(s, FeesVault, fees, s1);
    var s2 := s1[vault := At(s1, vault).(lamports := Lamports(s1, vault) - claimed)];
    TotalUpdate(s1, vault, At(s2, vault));
    CreditEffect(s2, v, claimed - fees, t);
    CreditWrites(s2, v, claimed - fees, t);
    Debited(s1, s2, vault);
    FrameWiden(s, s1, {}, {vault});
    FrameWiden(s2, t, {}, {vault});
    FrameThen(s, s1, s2, {vault});
    FrameThen(s, s2, t, {vault});
  }

  /** Where initialized vaults hold their rent, a claim moves one amount out of the validator's vault and all of it into
      two places, the protocol's vault and the validator, and leaves the rent minimum. As long as ten times the amount
      fits in 64 bits the protocol gets exactly a tenth, rounded down. */
  lemma ClaimMoves(c: Chain, s: Store, signers: set<Key>, v: Key, claim: Option<u64>, t: Store)
    requires HandleClaimValidatorFees(c, s, signers, v, claim) == Ok(t)
    requires VaultOk(c, s, ValidatorVault(v)) && !ProgramAddress(v)
    ensures Total(t) == Total(s) && Frame(s, t, {ValidatorVault(v)}) && VaultOk(c, t, ValidatorVault(v))
    ensures var claimed := Lamports(s, ValidatorVault(v)) - Lamports(t, ValidatorVault(v));
            && 0 <= claimed && c.rent(8) <= Lamports(t, ValidatorVault(v))
            && (if claim.Some? then claimed == claim.value else Lamports(t, ValidatorVault(v)) == c.rent(8))
            && (Lamports(t, FeesVault) - Lamports(s, FeesVault)) + (Lamports(t, v) - Lamports(s, v)) == claimed
            && (claimed * 10 < U64_LIMIT ==> Lamports(t, FeesVault) == Lamports(s, FeesVault) + claimed / 10)
    ensures forall k {:trigger At(t, k)} :: k != v && k != FeesVault && k != ValidatorVault(v) ==> At(t, k) == At(s, k)
  {
    hide Total, ProgramAddress, MoveFees, Frame;
    ClaimFromVault(c, s, signers, v, claim);
    var claimed, fees := ClaimStages(c, s, signers, v, claim, t);
    MoveFeesEffect(s, v, claimed, fees, t);
  }

  lemma ClaimFromVault(c: Chain, s: Store, signers: set<Key>, v: Key, claim: Option<u64>)
    requires HandleClaimValidatorFees(c, s, signers, v, claim).Ok? && VaultOk(c, s, ValidatorVault(v))
    ensures v in signers && Owned(s, FeesVault) && Owned(s, ValidatorVault(v))
    ensures c.rent(8) <= Lamports(s, ValidatorVault(v))
  {
    hide MoveFees, PlainSub, PlainMul;
  }

  lemma Debited(s: Store, t: Store, k: Key)
    requires forall j {:trigger At(t, j)} :: j != k ==> At(t, j) == At(s, j)
    ensures Frame(s, t, {k})
  {}

  /** When a claim succeeds, in a store where initialized vaults hold their rent: exactly when both vaults exist and
      the amount is there. None of the plain operations of the handler can overflow or wrap around, so it does not
      matter whether the build checks for it. */
  lemma ClaimSucceedsIff(c: Chain, s: Store, signers: set<Key>, v: Key, claim: Option<u64>)
    requires VaultOk(c, s, ValidatorVault(v)) && !ProgramAddress(v)
    requires Total(s) < U64_LIMIT / 10
    ensures HandleClaimValidatorFees(c, s, signers, v, claim).Ok? <==>
              && v in signers && Owned(s, FeesVault) && Owned(s, ValidatorVault(v))
              && (claim.Some? ==> claim.value <= Lamports(s, ValidatorVault(v)) - c.rent(8))
    ensures HandleClaimValidatorFees(c, s, signers, v, claim) != Err(Panic)
    ensures HandleClaimValidatorFees(c, s, signers, v, claim) != Err(Overflow)
    ensures HandleClaimValidatorFees(c.(overflowChecks := !c.overflowChecks), s, signers, v, claim)
            == HandleClaimValidatorFees(c, s, signers, v, claim)
  {
    hide Total, ProgramAddress, MoveFees;
    var vault := ValidatorVault(v);
    VaultAddresses(v);
    TotalCoversTwo(s, FeesVault, vault);
    TotalCoversTwo(s, v, vault);
    if v in signers && Owned(s, FeesVault) && Owned(s, vault) {
      var claimed := match claim case None => Lamports(s, vault) - c.rent(8) case Some(a) => a;
      if claimed <= Lamports(s, vault) - c.rent(8) {
        MoveFeesSucceeds(s, v, claimed, claimed * PROTOCOL_FEES_PERCENTAGE / 100);
      }
    }
  }

  lemma MoveFeesSucceeds(s: Store, v: Key, claimed: u64, fees: u64)
    requires !ProgramAddress(v) && fees <= claimed <= Lamports(s, ValidatorVault(v))
    requires Lamports(s, FeesVault) + Lamports(s, ValidatorVault(v)) < U64_LIMIT
    requires Lamports(s, v) + Lamports(s, ValidatorVault(v)) < U64_LIMIT
    ensures MoveFees(s, v, claimed, fees).Ok?
  {
    hide ProgramAddress;
    VaultAddresses(v);
  }

  /** The protocol's claim leaves exactly the rent minimum. */
  lemma ClaimProtocolMoves(c: Chain, s: Store, signers: set<Key>, admin: Key, t: Store)
    requires HandleClaimProtocolFees(c, s, signers, admin) == Ok(t)
    requires !ProgramAddress(admin)
    ensures Total(t) == Total(s) && Frame(s, t, {FeesVault}) && VaultOk(c, t, FeesVault)
    ensures Lamports(t, FeesVault) == c.rent(8) <= Lamports(s, FeesVault)
    ensures Lamports(t, admin) == Lamports(s, admin) + (Lamports(s, FeesVault) - c.rent(8))
  {
    hide Total;
    assert ProgramAddress(FeesVault);
    var s1 := s[FeesVault := At(s, FeesVault).(lamports := c.rent(8))];
    TotalUpdate(s, FeesVault, At(s1, FeesVault));
    TotalUpdate(s1, admin, At(t, admin));
  }

  /** And it succeeds for the admin whenever the vault exists: the floor makes the check on the rent pass. */
  lemma ClaimProtocolSucceedsIff(c: Chain, s: Store, signers: set<Key>, admin: Key)
    requires VaultOk(c, s, FeesVault) && !ProgramAddress(admin) && Total(s) < U64_LIMIT
    ensures HandleClaimProtocolFees(c, s, signers, admin).Ok? <==>
              admin in signers && Owned(s, FeesVault) && c.admin == Some(admin)
  {
    hide Total;
    assert ProgramAddress(FeesVault);
    TotalCoversTwo(s, FeesVault, admin);
  }
}
