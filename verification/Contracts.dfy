/** What each instruction promises, as it is submitted: exactly when it succeeds, and what every account is
    afterwards. */
module Contracts {
  import opened Outcomes
  import opened Octets
  import opened Layouts
  import opened Store
  import opened Fees
  import opened Handlers
  import opened Invariants
  import opened VaultEffects
  import opened ConfigEffects
  import opened Guarantees

  // ---- How they are stated ----

  /** Nobody uses the account: it belongs to the system program and has no data. */
  predicate Unused(s: Store, k: Key) {
    At(s, k).owner == System && At(s, k).data == []
  }

  predicate OfProgram(s: Store, k: Key) {
    At(s, k).owner == Dlp
  }

  /** What a balance lacks of a minimum. */
  function Lacks(held: nat, minimum: nat): nat {
    if held < minimum then minimum - held else 0
  }

  /** All other accounts are as they were. */
  ghost predicate Rest(s: Store, t: Store, keys: set<Key>) {
    forall k {:trigger At(t, k)} :: k !in keys ==> At(t, k) == At(s, k)
  }

  /** Nothing but the balance of an account has changed: it has grown by an amount, or shrunk. */
  predicate Gained(s: Store, t: Store, k: Key, amount: int) {
    Holds(At(t, k), At(s, k).owner, Lamports(s, k) + amount, At(s, k).data)
  }

  predicate Lost(s: Store, t: Store, k: Key, amount: int) {
    Holds(At(t, k), At(s, k).owner, Lamports(s, k) - amount, At(s, k).data)
  }

  // ---- Opening and closing vaults ----

  /** A vault with eight zero bytes and its rent, paid for by the payer. */
  ghost predicate VaultMade(c: Chain, s: Store, t: Store, vault: Key, payer: Key) {
    var lacks := Lacks(Lamports(s, vault), c.rent(8));
    && At(t, vault).owner == Dlp && Lamports(t, vault) == Lamports(s, vault) + lacks
    && |At(t, vault).data| == 8 && (forall i :: 0 <= i < 8 ==> At(t, vault).data[i] == B(0))
    && Lost(s, t, payer, lacks) && Rest(s, t, {vault, payer})
  }

  /** Creating, for any owner and size: what it takes, and that the account is zeroed. */
  lemma CreatesExactly(rent: nat -> u64, s: Store, target: Key, owner: Key, space: nat, payer: Key)
    requires Total(s) < U64_LIMIT && payer != target
    ensures var r, lacks := CreatePda(rent, s, target, owner, space, payer), Lacks(Lamports(s, target), rent(space));
            && (r.Ok? <==> Unused(s, target) && Pays(At(s, payer), lacks, Lamports(s, target) == 0))
            && (r.Ok? ==>
                  && At(r.value, target).owner == owner && Lamports(r.value, target) == Lamports(s, target) + lacks
                  && |At(r.value, target).data| == space
                  && (forall i :: 0 <= i < space ==> At(r.value, target).data[i] == B(0))
                  && Lost(s, r.value, payer, lacks) && Rest(s, r.value, {target, payer})
                  && Total(r.value) == Total(s))
  {
    hide Total, CreatePda, Frame, Pays;
    CreateSucceedsIff(rent, s, target, owner, space, payer);
    assert Shortfall(Lamports(s, target), rent(space)) == Lacks(Lamports(s, target), rent(space));
    var r := CreatePda(rent, s, target, owner, space, payer);
    if r.Ok? {
      CreatePdaEffect(rent, s, target, owner, space, payer, r.value);
    }
  }

  lemma CreatesVault(c: Chain, s: Store, vault: Key, payer: Key)
    requires Total(s) < U64_LIMIT && payer != vault
    ensures var r := CreatePda(c.rent, s, vault, Dlp, 8, payer);
            && (r.Ok? <==> Unused(s, vault) && Pays(At(s, payer), Lacks(Lamports(s, vault), c.rent(8)),
                                                    Lamports(s, vault) == 0))
            && (r.Ok? ==> VaultMade(c, s, r.value, vault, payer))
  {
    hide Total, CreatePda, Pays, Lacks, Unused, Rest;
    CreatesExactly(c.rent, s, vault, Dlp, 8, payer);
  }

  /** The protocol's vault: opened by anyone who pays for it, once. */
  lemma InitFeesVaultContract(c: Chain, s: Store, signers: set<Key>, payer: Key)
    requires Total(s) < U64_LIMIT && !ProgramAddress(payer)
    ensures var r := Handle(c, s, signers, InitFeesVault(payer));
            && (r.Ok? <==>
                  && payer in signers && Unused(s, FeesVault)
                  && Pays(At(s, payer), Lacks(Lamports(s, FeesVault), c.rent(8)), Lamports(s, FeesVault) == 0))
            && (r.Ok? ==> VaultMade(c, s, r.value, FeesVault, payer))
  {
    hide Total, CreatePda, VaultMade, Pays;
    CreatesVault(c, s, FeesVault, payer);
  }

  /** A validator's vault: opened by the admin, who signs next to the payer. */
  lemma InitValidatorVaultContract(c: Chain, s: Store, signers: set<Key>, payer: Key, admin: Key, identity: Key)
    requires Total(s) < U64_LIMIT && !ProgramAddress(payer)
    ensures var r, vault := Handle(c, s, signers, InitValidatorVault(payer, admin, identity)), ValidatorVault(identity);
            && (r.Ok? <==>
                  && payer in signers && admin in signers && c.admin == Some(admin) && Unused(s, vault)
                  && Pays(At(s, payer), Lacks(Lamports(s, vault), c.rent(8)), Lamports(s, vault) == 0))
            && (r.Ok? ==> VaultMade(c, s, r.value, vault, payer))
  {
    hide Total, CreatePda, VaultMade, Pays;
    CreatesVault(c, s, ValidatorVault(identity), payer);
  }

  /** Closing a validator's vault: by the admin; the whole balance goes to the validator and the vault is gone. */
  lemma CloseValidatorVaultContract(c: Chain, s: Store, signers: set<Key>, payer: Key, admin: Key, identity: Key)
    requires Total(s) < U64_LIMIT
    ensures var vault := ValidatorVault(identity);
            var r := Handle(c, s, signers, CloseValidatorVault(payer, admin, identity));
            && (r.Ok? <==>
                  && payer in signers && admin in signers && c.admin == Some(admin) && OfProgram(s, vault))
            && (r.Ok? ==>
                  && At(r.value, vault) == Account(System, 0, []) && Gained(s, r.value, identity, Lamports(s, vault))
                  && Rest(s, r.value, {vault, identity}))
  {
    hide Total, ClosePda, Frame;
    var vault := ValidatorVault(identity);
    NotItsOwnVault(identity);
    ClosePdaSucceeds(s, vault, identity);
    ClosePdaEffect(s, vault, identity, ClosePda(s, vault, identity).value);
  }

  // ---- Claims ----

  /** A validator's claim: everything above the rent of eight bytes, or any part of it; a tenth goes to the protocol. */
  lemma ClaimValidatorFeesContract(c: Chain, s: Store, signers: set<Key>, v: Key, claim: Option<u64>)
    requires VaultOk(c, s, ValidatorVault(v)) && !ProgramAddress(v) && Total(s) < U64_LIMIT / 10
    ensures var r, vault := Handle(c, s, signers, ClaimValidatorFees(v, claim)), ValidatorVault(v);
            var available := Lamports(s, vault) - c.rent(8);
            var claimed := if claim.Some? then claim.value else available;
            && (r.Ok? <==> v in signers && OfProgram(s, FeesVault) && OfProgram(s, vault) && claimed <= available)
            && (r.Ok? ==>
                  && Lost(s, r.value, vault, claimed) && Gained(s, r.value, FeesVault, claimed / 10)
                  && Gained(s, r.value, v, claimed - claimed / 10) && Rest(s, r.value, {v, vault, FeesVault}))
  {
    hide Total, ProgramAddress, MoveFees, Frame;
    ClaimSucceedsIff(c, s, signers, v, claim);
    var r := Handle(c, s, signers, ClaimValidatorFees(v, claim));
    if r.Ok? {
      VaultAddresses(v);
      TotalCovers(s, ValidatorVault(v));
      ClaimFromVault(c, s, signers, v, claim);
      var claimed, fees := ClaimStages(c, s, signers, v, claim, r.value);
      MoveFeesEffect(s, v, claimed, fees, r.value);
      MoveFeesKeeps(s, v, claimed, fees, r.value);
    }
  }

  lemma MoveFeesKeeps(s: Store, v: Key, claimed: u64, fees: u64, t: Store)
    requires MoveFees(s, v, claimed, fees) == Ok(t)
    ensures forall k {:trigger At(t, k)} :: At(t, k).owner == At(s, k).owner && At(t, k).data == At(s, k).data
  {}

  /** Beyond 64 bits the product wraps around, or the build's check stops it. */
  lemma ClaimWraps(c: Chain, s: Store, signers: set<Key>, v: Key, claim: Option<u64>)
    requires VaultOk(c, s, ValidatorVault(v)) && !ProgramAddress(v)
    requires v in signers && OfProgram(s, FeesVault) && OfProgram(s, ValidatorVault(v))
    ensures var r, vault := Handle(c, s, signers, ClaimValidatorFees(v, claim)), ValidatorVault(v);
            var available := Lamports(s, vault) - c.rent(8);
            var claimed := if claim.Some? then claim.value else available;
            && (claimed > available ==> r == Err(InsufficientFunds))
            && (claimed <= available && claimed * 10 >= 0x1_0000_0000_0000_0000 ==>
                  if c.overflowChecks then r == Err(Panic)
                  else r.Ok? ==>
                       Lamports(r.value, FeesVault)
                       == Lamports(s, FeesVault) + claimed * 10 % 0x1_0000_0000_0000_0000 / 100)
  {
    hide ProgramAddress, MoveFees, Frame, Total;
    var vault := ValidatorVault(v);
    var available := Lamports(s, vault) - c.rent(8);
    var claimed := if claim.Some? then claim.value else available;
    var r := Handle(c, s, signers, ClaimValidatorFees(v, claim));
    if claimed <= available && r.Ok? && claimed * 10 >= U64_LIMIT {
      var fees := claimed * 10 % U64_LIMIT / 100;
      MoveFeesEffect(s, v, claimed, fees, r.value);
    }
  }

  /** A vault below its rent, which no run leads to: a checking build fails; a wrapping one refuses to claim all of it,
      but would pay out a given amount. */
  lemma ClaimBelowRent(c: Chain, s: Store, signers: set<Key>, v: Key, claim: Option<u64>)
    requires v in signers && OfProgram(s, FeesVault) && OfProgram(s, ValidatorVault(v)) && !ProgramAddress(v)
    requires Lamports(s, ValidatorVault(v)) < c.rent(8) && Total(s) < U64_LIMIT / 10
    ensures var r := Handle(c, s, signers, ClaimValidatorFees(v, claim));
            if c.overflowChecks then r == Err(Panic)
            else if claim.Some? && claim.value <= Lamports(s, ValidatorVault(v)) then r.Ok?
            else r == Err(InsufficientFunds)
  {
    hide Total, ProgramAddress, MoveFees;
    var vault := ValidatorVault(v);
    VaultAddresses(v);
    TotalCoversTwo(s, FeesVault, vault);
    TotalCoversTwo(s, v, vault);
    if claim.Some? && claim.value <= Lamports(s, vault) {
      MoveFeesSucceeds(s, v, claim.value, claim.value * PROTOCOL_FEES_PERCENTAGE / 100);
    }
    MoveFeesNeeds(s, v);
  }

  lemma MoveFeesNeeds(s: Store, v: Key)
    requires FeesVault != ValidatorVault(v)
    ensures forall claimed: u64, fees: u64 ::
              claimed > Lamports(s, ValidatorVault(v)) && Lamports(s, FeesVault) + fees < U64_LIMIT ==>
                MoveFees(s, v, claimed, fees) == Err(InsufficientFunds)
  {}

  /** The protocol's claim: the admin takes everything above the rent of eight bytes. */
  lemma ClaimProtocolFeesContract(c: Chain, s: Store, signers: set<Key>, admin: Key)
    requires VaultOk(c, s, FeesVault) && !ProgramAddress(admin) && Total(s) < U64_LIMIT
    ensures var r := Handle(c, s, signers, ClaimProtocolFees(admin));
            var amount := Lamports(s, FeesVault) - c.rent(8);
            && (r.Ok? <==> admin in signers && c.admin == Some(admin) && OfProgram(s, FeesVault))
            && (r.Ok? ==>
                  && amount >= 0 && Lost(s, r.value, FeesVault, amount) && Gained(s, r.value, admin, amount)
                  && Rest(s, r.value, {FeesVault, admin}))
  {
    hide Total;
    ClaimProtocolSucceedsIff(c, s, signers, admin);
    assert ProgramAddress(FeesVault);
  }

  // ---- Program configs ----

  /** The set after a change, and the rent it takes: that of an absent config's empty account, then what the config
      lacks for its new size. */
  function After(s: Store, program: Key, validator: Key, insert: bool): set<Key> {
    var before := if Approved(s, program).Some? then Approved(s, program).value else {};
    if insert then before + {validator} else before - {validator}
  }

  function ConfigOpening(c: Chain, s: Store, program: Key): nat {
    if Approved(s, program).Some? then 0 else Lacks(Lamports(s, Config(program)), c.rent(0))
  }

  function ConfigGrowing(c: Chain, s: Store, program: Key, count: nat): nat {
    Lacks(Lamports(s, Config(program)) + ConfigOpening(c, s, program), c.rent(12 + 32 * count))
  }

  /** A config that holds a set, and an authority that paid for it. */
  ghost predicate Stored(c: Chain, s: Store, t: Store, authority: Key, program: Key, approved: set<Key>) {
    var config := Config(program);
    var cost := ConfigOpening(c, s, program) + ConfigGrowing(c, s, program, |approved|);
    && At(t, config).owner == Dlp && DecodeConfig(At(t, config).data) == Ok(approved)
    && |At(t, config).data| == 12 + 32 * |approved|
    && Lamports(t, config) == Lamports(s, config) + cost
    && Lost(s, t, authority, cost) && Rest(s, t, {config, authority})
  }

  /** Changing the approved validators of a program: by the program's own upgrade authority or by the admin, who has to
      exist either way; as long as the set can be counted in four bytes and the authority can pay. */
  lemma WhitelistContract(c: Chain, s: Store, signers: set<Key>, authority: Key, validator: Key, program: Key,
                          insert: bool, stale: Bytes)
    requires c.Valid() && ConfigOk(c, s, program) && !ProgramAddress(authority) && Total(s) < U64_LIMIT
    ensures var r, after := Handle(c, s, signers, Whitelist(authority, validator, program, insert, stale)),
                            After(s, program, validator, insert);
            && (r.Ok? <==>
                  && authority in signers && c.admin.Some?
                  && (authority == c.admin.value || c.upgradeAuthority(program) == Some(authority))
                  && |after| < 0x1_0000_0000
                  && Pays(At(s, authority), ConfigOpening(c, s, program) + ConfigGrowing(c, s, program, |after|), true))
            && (r.Ok? ==> Stored(c, s, r.value, authority, program, after))
  {
    hide Total, HandleWhitelist, Approved, ConfigOk, Chain.Valid, Pays, Lacks, Stored;
    WhitelistSucceedsIff(c, s, signers, authority, validator, program, insert, stale);
    var r := Handle(c, s, signers, Whitelist(authority, validator, program, insert, stale));
    if r.Ok? {
      WhitelistStores(c, s, signers, authority, validator, program, insert, stale, r.value);
    }
  }

  lemma WhitelistStores(c: Chain, s: Store, signers: set<Key>, authority: Key, validator: Key, program: Key,
                        insert: bool, stale: Bytes, t: Store)
    requires HandleWhitelist(c, s, signers, authority, validator, program, insert, stale) == Ok(t)
    requires c.Valid() && ConfigOk(c, s, program) && !ProgramAddress(authority) && Total(s) < U64_LIMIT
    ensures Stored(c, s, t, authority, program, After(s, program, validator, insert))
  {
    hide Total, Frame, HandleWhitelist, Approved, ConfigOk, Chain.Valid, EncodeConfig, DecodeConfig, Rest, Lacks,
         AtLeast, After, Updated;
    AfterIsUpdated(s, program, validator, insert);
    WhitelistEffect(c, s, signers, authority, validator, program, insert, stale, t);
    WhitelistCost(c, s, signers, authority, validator, program, insert, stale, t);
    var held, size := Lamports(s, Config(program)), |At(t, Config(program)).data|;
    LacksFills(held, c.rent(0));
    LacksFills(held, c.rent(size));
    LacksFills(AtLeast(held, c.rent(0)), c.rent(size));
    WhitelistRest(c, s, signers, authority, validator, program, insert, stale, t);
    ApprovedReads(c, t, program);
  }

  lemma AfterIsUpdated(s: Store, program: Key, validator: Key, insert: bool)
    ensures After(s, program, validator, insert) == Updated(Approved(s, program), validator, insert)
  {}

  lemma LacksFills(held: nat, minimum: nat)
    ensures AtLeast(held, minimum) == held + Lacks(held, minimum)
  {}

  lemma ApprovedReads(c: Chain, s: Store, program: Key)
    requires ConfigOk(c, s, program) && Approved(s, program).Some?
    ensures At(s, Config(program)).owner == Dlp
    ensures DecodeConfig(At(s, Config(program)).data) == Ok(Approved(s, program).value)
  {
    hide EncodeConfig, DecodeConfig;
  }

  /** Loading succeeds when there is a config, or the authority can pay for an empty one. */
  lemma LoadSucceedsIff(c: Chain, s: Store, authority: Key, program: Key)
    requires ConfigOk(c, s, program) && !ProgramAddress(authority) && Total(s) < U64_LIMIT
    ensures var r, config := LoadConfig(c, s, authority, program), Config(program);
            var opening := if Approved(s, program).Some? then 0 else Lacks(Lamports(s, config), c.rent(0));
            && (r.Ok? <==> Approved(s, program).Some?
                           || Pays(At(s, authority), opening, Lamports(s, config) == 0))
            && (r.Ok? ==>
                  && r.value.1 == (if Approved(s, program).Some? then Approved(s, program).value else {})
                  && Total(r.value.0) == Total(s) && Rest(s, r.value.0, {config, authority})
                  && Lost(s, r.value.0, authority, opening)
                  && Lamports(r.value.0, config) == Lamports(s, config) + opening)
  {
    hide Total, CreatePda, EncodeConfig, DecodeConfig, Pays, Lacks;
    CreatesExactly(c.rent, s, Config(program), Dlp, 0, authority);
  }

  /** Resizing succeeds when the payer can pay what is missing; it transfers even nothing. */
  lemma ResizeSucceedsIff(rent: nat -> u64, s: Store, payer: Key, pda: Key, size: nat, stale: Bytes)
    requires payer != pda && Total(s) < U64_LIMIT
    ensures var r := ResizePda(rent, s, payer, pda, size, stale);
            && (r.Ok? <==> Pays(At(s, payer), Lacks(Lamports(s, pda), rent(size)), true))
            && (r.Ok? ==>
                  && |At(r.value, pda).data| == size && Rest(s, r.value, {pda, payer})
                  && (forall i :: 0 <= i < size && i < |At(s, pda).data| ==>
                        At(r.value, pda).data[i] == At(s, pda).data[i])
                  && Lost(s, r.value, payer, Lacks(Lamports(s, pda), rent(size))))
  {
    hide Total;
    TotalCoversTwo(s, payer, pda);
  }

  lemma WhitelistSucceedsIff(c: Chain, s: Store, signers: set<Key>, authority: Key, validator: Key, program: Key,
                             insert: bool, stale: Bytes)
    requires c.Valid() && ConfigOk(c, s, program) && !ProgramAddress(authority) && Total(s) < U64_LIMIT
    ensures var after := After(s, program, validator, insert);
            HandleWhitelist(c, s, signers, authority, validator, program, insert, stale).Ok? <==>
              && authority in signers && c.admin.Some?
              && (authority == c.admin.value || c.upgradeAuthority(program) == Some(authority))
              && |after| < 0x1_0000_0000
              && Pays(At(s, authority), ConfigOpening(c, s, program) + ConfigGrowing(c, s, program, |after|), true)
  {
    hide Total, LoadConfig, StoreConfig, Approved, ConfigOk, Chain.Valid, Pays, Lacks, Rest, Lost;
    LoadSucceedsIff(c, s, authority, program);
    OpensAndStores(c, s, authority, program, After(s, program, validator, insert), stale);
  }

  /** Loading a config and storing another set in it, together. */
  lemma OpensAndStores(c: Chain, s: Store, authority: Key, program: Key, after: set<Key>, stale: Bytes)
    requires c.Valid() && ConfigOk(c, s, program) && !ProgramAddress(authority) && Total(s) < U64_LIMIT
    ensures var config, loaded := Config(program), LoadConfig(c, s, authority, program);
            var opening := if Approved(s, program).Some? then 0 else Lacks(Lamports(s, config), c.rent(0));
            var growing := Lacks(Lamports(s, config) + opening, c.rent(12 + 32 * |after|));
            loaded.Ok? && StoreConfig(c, loaded.value.0, authority, program, after, stale).Ok? <==>
              |after| < 0x1_0000_0000 && Pays(At(s, authority), opening + growing, true)
  {
    hide Total, LoadConfig, StoreConfig, Approved, ConfigOk, Chain.Valid, Pays, Lacks, Rest;
    var config := Config(program);
    var opening := if Approved(s, program).Some? then 0 else Lacks(Lamports(s, config), c.rent(0));
    var growing := Lacks(Lamports(s, config) + opening, c.rent(12 + 32 * |after|));
    LoadSucceedsIff(c, s, authority, program);
    var loaded := LoadConfig(c, s, authority, program);
    var creates := Approved(s, program).None? && Lamports(s, config) == 0;
    NothingIsPaid(At(s, authority));
    if loaded.Ok? {
      StoreSucceedsIff(c, loaded.value.0, authority, program, after, stale);
      PaysTwice(At(s, authority), At(loaded.value.0, authority), opening, creates, growing, true);
    } else {
      PaysPart(At(s, authority), opening, creates, growing, true);
    }
  }

  lemma StoreSucceedsIff(c: Chain, s: Store, authority: Key, program: Key, approved: set<Key>, stale: Bytes)
    requires c.Valid() && !ProgramAddress(authority) && Total(s) < U64_LIMIT
    ensures StoreConfig(c, s, authority, program, approved, stale).Ok? <==>
              && |approved| < 0x1_0000_0000
              && Pays(At(s, authority), Lacks(Lamports(s, Config(program)), c.rent(12 + 32 * |approved|)), true)
  {
    hide Total, ResizePda, Overwrite, EncodeConfig, DecodeConfig, Chain.Valid, Pays, Lacks, Rest;
    var size := 12 + 32 * |approved|;
    ResizeSucceedsIff(c.rent, s, authority, Config(program), size, stale);
    var resized := ResizePda(c.rent, s, authority, Config(program), size, stale);
    if resized.Ok? && |approved| < 0x1_0000_0000 {
      ConfigWritten(c, approved, At(resized.value, Config(program)).data);
    }
  }

  lemma WhitelistRest(c: Chain, s: Store, signers: set<Key>, authority: Key, validator: Key, program: Key,
                      insert: bool, stale: Bytes, t: Store)
    requires HandleWhitelist(c, s, signers, authority, validator, program, insert, stale) == Ok(t)
    requires ConfigOk(c, s, program) && !ProgramAddress(authority) && Total(s) < U64_LIMIT
    ensures Rest(s, t, {Config(program), authority})
    ensures At(t, authority).owner == At(s, authority).owner && At(t, authority).data == At(s, authority).data
  {
    hide Total, Frame, HandleWhitelist, LoadConfig, ResizePda, Overwrite, EncodeConfig, DecodeConfig, ConfigOk, Pays,
         Lacks, Approved;
    var s1, before, after, s2, bytes :=
        WhitelistStages(c, s, signers, authority, validator, program, insert, stale, t);
    LoadSucceedsIff(c, s, authority, program);
    ResizeSucceedsIff(c.rent, s1, authority, Config(program), 12 + 32 * |after|, stale);
    forall k | k !in {Config(program), authority} ensures At(t, k) == At(s, k) {
      assert At(t, k) == At(s2, k) == At(s1, k);
    }
  }

  // ---- Escrow accounts ----

  /** Topping up: an escrow account that is not delegated first gets what it lacks of the rent of an empty account. */
  lemma TopUpEscrowContract(c: Chain, s: Store, signers: set<Key>, payer: Key, of: Key, index: byte, amount: u64)
    requires !ProgramAddress(payer) && Total(s) < U64_LIMIT
    ensures var r, escrow := Handle(c, s, signers, TopUpEscrow(payer, of, index, amount)), Escrow(of, index);
            var opening := if At(s, escrow).owner == System then Lacks(Lamports(s, escrow), c.rent(0)) else 0;
            var transfers := amount > 0 || (At(s, escrow).owner == System && Lamports(s, escrow) == 0);
            && (r.Ok? <==>
                  && payer in signers && (At(s, escrow).owner == System ==> At(s, escrow).data == [])
                  && Pays(At(s, payer), opening + amount, transfers))
            && (r.Ok? ==>
                  && Gained(s, r.value, escrow, opening + amount) && Lost(s, r.value, payer, opening + amount)
                  && Rest(s, r.value, {escrow, payer}))
  {
    hide Total, CreatePda, Transfer, Pays, Lacks, Gained, Lost, Rest;
    var escrow := Escrow(of, index);
    if At(s, escrow).owner == System {
      CreatesEscrow(c, s, payer, escrow);
      PaysPart(At(s, payer), Lacks(Lamports(s, escrow), c.rent(0)), Lamports(s, escrow) == 0, amount, amount > 0);
      var created := CreatePda(c.rent, s, escrow, System, 0, payer);
      if created.Ok? {
        var opening := Lacks(Lamports(s, escrow), c.rent(0));
        Deposits(s, created.value, payer, escrow, opening, Lamports(s, escrow) == 0, amount);
      }
    } else {
      Nothing(s, payer, escrow);
      Deposits(s, s, payer, escrow, 0, false, amount);
    }
  }

  lemma CreatesEscrow(c: Chain, s: Store, payer: Key, escrow: Key)
    requires escrow.Escrow? && !ProgramAddress(payer) && Total(s) < U64_LIMIT && At(s, escrow).owner == System
    ensures var r, opening := CreatePda(c.rent, s, escrow, System, 0, payer), Lacks(Lamports(s, escrow), c.rent(0));
            && (r.Ok? <==> At(s, escrow).data == [] && Pays(At(s, payer), opening, Lamports(s, escrow) == 0))
            && (r.Ok? ==>
                  && Gained(s, r.value, escrow, opening) && Lost(s, r.value, payer, opening)
                  && Rest(s, r.value, {escrow, payer}) && Total(r.value) == Total(s))
  {
    hide Total, CreatePda, Pays, Lacks;
    CreatesExactly(c.rent, s, escrow, System, 0, payer);
  }

  lemma Nothing(s: Store, payer: Key, escrow: Key)
    ensures Gained(s, s, escrow, 0) && Lost(s, s, payer, 0) && Rest(s, s, {escrow, payer})
    ensures Pays(At(s, payer), 0, false)
  {}

  /** After an account was opened, or nothing was done, the amount is deposited, unless it is zero. */
  lemma Deposits(s: Store, s1: Store, payer: Key, escrow: Key, opening: nat, creates: bool, amount: u64)
    requires escrow.Escrow? && !ProgramAddress(payer) && Total(s1) < U64_LIMIT && Pays(At(s, payer), opening, creates)
    requires Gained(s, s1, escrow, opening) && Lost(s, s1, payer, opening) && Rest(s, s1, {escrow, payer})
    ensures var r := if amount > 0 then Transfer(s1, payer, escrow, amount) else Ok(s1);
            && (r.Ok? <==> Pays(At(s, payer), opening + amount, amount > 0 || creates))
            && (r.Ok? ==>
                  && Gained(s, r.value, escrow, opening + amount) && Lost(s, r.value, payer, opening + amount)
                  && Rest(s, r.value, {escrow, payer}))
  {
    hide Total, Transfer, Pays;
    TransferPays(s1, payer, escrow, amount);
    PaysTwice(At(s, payer), At(s1, payer), opening, creates, amount, amount > 0);
    NothingIsPaid(At(s1, payer));
    var r := if amount > 0 then Transfer(s1, payer, escrow, amount) else Ok(s1);
    if r.Ok? {
      forall k | k !in {escrow, payer} ensures At(r.value, k) == At(s, k) {
        assert At(r.value, k) == At(s1, k);
      }
    }
  }

  lemma TransferPays(s: Store, from: Key, to: Key, amount: u64)
    requires from != to && Total(s) < U64_LIMIT
    ensures var r := Transfer(s, from, to, amount);
            && (r.Ok? <==> Pays(At(s, from), amount, true))
            && (r.Ok? ==> Lost(s, r.value, from, amount) && Gained(s, r.value, to, amount)
                          && Rest(s, r.value, {from, to}))
  {
    hide Total, Pays;
    TransferSucceedsIff(s, from, to, amount);
  }

  /** Closing: the escrow account's own payer gets the whole balance, and may close an empty one. */
  lemma CloseEscrowContract(c: Chain, s: Store, signers: set<Key>, payer: Key, index: byte)
    requires !ProgramAddress(payer) && Total(s) < U64_LIMIT
    ensures var r, escrow := Handle(c, s, signers, CloseEscrow(payer, index)), Escrow(payer, index);
            && (r.Ok? <==>
                  && payer in signers && At(s, escrow).owner == System
                  && (Lamports(s, escrow) == 0 || At(s, escrow).data == []))
            && (r.Ok? ==>
                  && Lost(s, r.value, escrow, Lamports(s, escrow))
                  && Gained(s, r.value, payer, Lamports(s, escrow)) && Rest(s, r.value, {escrow, payer}))
  {
    hide Total;
    assert ProgramAddress(Escrow(payer, index));
    TransferPays(s, Escrow(payer, index), payer, Lamports(s, Escrow(payer, index)));
  }
}
