/** What each instruction does to the store, as a function: the specification the Bank methods are proved against. */
module Handlers {
  import opened Outcomes
  import opened Octets
  import opened Layouts
  import opened Store
  import opened Fees

  /** What the handlers depend on besides the store: whether the build checks plain arithmetic for overflow or wraps
      around, the rent minimum of a data length, the upgrade authority of the program itself and of other programs, and
      the order in which a set of addresses is written. */
  datatype Chain = Chain(
    overflowChecks: bool,
    rent: nat -> u64,
    admin: Option<Key>,
    upgradeAuthority: Key -> Option<Key>,
    listing: set<Key> -> seq<Key>)
  {
    ghost predicate Valid() {
      forall keys :: Listing(listing(keys), keys)
    }
  }

  /** What the owner program leaves in the three accounts it was handed, or its failure. Nothing else is known of it. */
  datatype CpiReply =
    | CpiFails
    | CpiReturns(delegated: Account, buffer: Account, validator: Account)

  datatype DelegateArgs = DelegateArgs(
    commitFrequencyMs: u32, seeds: seq<Bytes>, validator: Option<Key>, clockSlot: u64)

  datatype CommitArgs = CommitArgs(slot: u64, lamports: u64, allowUndelegation: bool, state: Bytes)

  /** An instruction names the accounts its caller chooses; the derived ones follow from these. */
  datatype Instruction =
    | Delegate(payer: Key, delegated: Key, ownerProgram: Key, delegateArgs: DelegateArgs)
    | Commit(validator: Key, delegated: Key, commitArgs: CommitArgs)
    | CommitFromBuffer(validator: Key, delegated: Key, stateBuffer: Key, commitArgs: CommitArgs)
    | Finalize(validator: Key, delegated: Key)
    | Undelegate(validator: Key, delegated: Key, ownerProgram: Key, reimbursement: Key, reply: CpiReply)
    | InitFeesVault(payer: Key)
    | InitValidatorVault(payer: Key, admin: Key, identity: Key)
    | CloseValidatorVault(payer: Key, admin: Key, identity: Key)
    | ClaimValidatorFees(validator: Key, claim: Option<u64>)
    | ClaimProtocolFees(admin: Key)
    | Whitelist(authority: Key, validator: Key, program: Key, insert: bool, stale: Bytes)
    | TopUpEscrow(payer: Key, of: Key, index: byte, amount: u64)
    | DelegateEscrow(payer: Key, of: Key, index: byte, delegateArgs: DelegateArgs)
    | CloseEscrow(payer: Key, index: byte)

  // ---- Guards ----

  function Signs(k: Key, signers: set<Key>): Check {
    Need(k in signers, MissingRequiredSignature)
  }

  function Initialized(s: Store, k: Key): Check {
    Need(Owned(s, k), InvalidAccountOwner)
  }

  function Uninitialized(s: Store, k: Key): Check {
    if At(s, k).owner != System then Fail(InvalidAccountOwner)
    else Need(At(s, k).data == [], AccountAlreadyInitialized)
  }

  /** Addresses off the curve must be derived from the given seeds by the owner program, or, for the system
      program, by the delegation program. How the bytes are split into seeds makes no difference. */
  predicate DerivedFrom(k: Key, program: Key, seeds: seq<Bytes>) {
    match Derivation(k)
    case None => false
    case Some((deriving, own)) => deriving == program && Flat(own) == Flat(seeds)
  }

  function SeedsMatch(delegated: Key, ownerProgram: Key, seeds: seq<Bytes>): Check {
    var program := if ownerProgram == System then Dlp else ownerProgram;
    Need(OnCurve(delegated) || DerivedFrom(delegated, program, seeds), InvalidSeeds)
  }

  // ---- Delegate ----

  function NewRecord(s: Store, delegated: Key, ownerProgram: Key, args: DelegateArgs): DelegationRecord {
    DelegationRecord(
      match args.validator case None => System case Some(v) => v,
      ownerProgram, args.clockSlot, Lamports(s, delegated), args.commitFrequencyMs)
  }

  function NewMetadata(payer: Key, args: DelegateArgs): DelegationMetadata {
    DelegationMetadata(0, false, args.seeds, payer)
  }

  function HandleDelegate(c: Chain, s: Store, signers: set<Key>,
                          payer: Key, delegated: Key, ownerProgram: Key, args: DelegateArgs): Result<Store>
  {
    var seedsMatch := SeedsMatch(delegated, ownerProgram, args.seeds);
    :- Initialized(s, delegated);
    :- seedsMatch;
    :- Uninitialized(s, Record(delegated));
    :- Uninitialized(s, Metadata(delegated));
    :- Signs(payer, signers);
    :- Signs(delegated, signers);
    var s1 :- CreatePda(c.rent, s, Record(delegated), Dlp, RECORD_SIZE, payer);
    var s2 := SetData(s1, Record(delegated), EncodeRecord(NewRecord(s1, delegated, ownerProgram, args)));
    :- Need(Encodable(args.seeds), InvalidAccountData);
    var bytes := EncodeMetadata(NewMetadata(payer, args));
    var s3 :- CreatePda(c.rent, s2, Metadata(delegated), Dlp, |bytes|, payer);
    var s4 := SetData(s3, Metadata(delegated), bytes);
    var staged := At(s4, DelegateBuffer(delegated, ownerProgram)).data;
    if staged == [] then Ok(s4)
    else
      :- Need(|staged| == |At(s4, delegated).data|, Panic);
      Ok(SetData(s4, delegated, staged))
  }

  // ---- Commit ----

  /** The difference a validator puts up when it commits more lamports than are recorded. */
  function PostCollateral(s: Store, validator: Key, delegated: Key, recorded: u64, committed: u64): Result<Store> {
    if committed > recorded then Transfer(s, validator, CommitState(delegated), committed - recorded) else Ok(s)
  }

  function Admitted(s: Store, program: Key, validator: Key): Check {
    if At(s, Config(program)).owner == System then Pass
    else match DecodeConfig(At(s, Config(program)).data)
         case Err(e) => Fail(e)
         case Ok(approved) => Need(validator in approved, InvalidWhitelistProgramConfig)
  }

  function HandleCommit(c: Chain, s: Store, signers: set<Key>, validator: Key, delegated: Key,
                        args: CommitArgs): Result<Store> {
    var vault := ValidatorVault(validator);
    :- Initialized(s, delegated);
    :- Signs(validator, signers);
    :- Initialized(s, Record(delegated));
    :- Initialized(s, Metadata(delegated));
    :- Initialized(s, vault);
    var meta :- DecodeMetadata(At(s, Metadata(delegated)).data);
    if args.slot < meta.lastUpdateExternalSlot then Ok(s)
    else
      :- Need(!meta.isUndelegatable, AlreadyUndelegated);
      var flagged :-
          Overwrite(At(s, Metadata(delegated)).data, EncodeMetadata(meta.(isUndelegatable := args.allowUndelegation)));
      var s1 := SetData(s, Metadata(delegated), flagged);
      var record :- DecodeRecord(At(s1, Record(delegated)).data);
      :- Need(record.lamports <= Lamports(s1, delegated), InvalidDelegatedState);
      var s2 :- PostCollateral(s1, validator, delegated, record.lamports, args.lamports);
      :- Admitted(s2, record.owner, validator);
      StoreCommit(c, s2, validator, delegated, args)
  }

  /** Creates the two accounts of a pending commit and writes them. */
  function StoreCommit(c: Chain, s: Store, validator: Key, delegated: Key, args: CommitArgs): Result<Store> {
    var record := CommitRecordData(validator, delegated, args.slot, args.lamports);
    :- Uninitialized(s, CommitState(delegated));
    :- Uninitialized(s, CommitRecord(delegated));
    var s1 :- CreatePda(c.rent, s, CommitState(delegated), Dlp, |args.state|, validator);
    var s2 :- CreatePda(c.rent, s1, CommitRecord(delegated), Dlp, COMMIT_RECORD_SIZE, validator);
    var s3 := SetData(s2, CommitRecord(delegated), EncodeCommitRecord(record));
    Ok(SetData(s3, CommitState(delegated), args.state))
  }

  // ---- Finalize ----

  /** Settles the difference between recorded and committed lamports: a surplus goes from the delegated account
      to the validator's vault, a deficit comes out of the collateral in the commit state account. */
  function Settle(s: Store, delegated: Key, validator: Key, recorded: u64, committed: u64): Result<Store> {
    if recorded == committed then Ok(s)
    else
      var (from, to, amount) :=
        if recorded > committed then (delegated, ValidatorVault(validator), recorded - committed)
        else (CommitState(delegated), delegated, committed - recorded);
      :- Need(amount <= Lamports(s, from), Overflow);
      Credit(s[from := At(s, from).(lamports := Lamports(s, from) - amount)], to, amount)
  }

  function HandleFinalize(c: Chain, s: Store, signers: set<Key>, validator: Key, delegated: Key): Result<Store> {
    var vault := ValidatorVault(validator);
    :- Signs(validator, signers);
    :- Initialized(s, delegated);
    :- Initialized(s, Record(delegated));
    :- Initialized(s, Metadata(delegated));
    :- Initialized(s, vault);
    if Fresh(s, CommitState(delegated)) && Fresh(s, CommitRecord(delegated)) then Ok(s)
    else ApplyCommit(s, validator, delegated)
  }

  /** Settles, writes and closes a pending commit. */
  function ApplyCommit(s: Store, validator: Key, delegated: Key): Result<Store> {
    var state := CommitState(delegated);
    :- Initialized(s, state);
    :- Initialized(s, CommitRecord(delegated));
    var meta :- DecodeMetadata(At(s, Metadata(delegated)).data);
    var record :- DecodeRecord(At(s, Record(delegated)).data);
    var commit :- DecodeCommitRecord(At(s, CommitRecord(delegated)).data);
    :- Need(commit.account == delegated, InvalidDelegatedAccount);
    :- Need(commit.identity == validator, InvalidReimbursementAccount);
    var s1 :- Settle(s, delegated, validator, record.lamports, commit.lamports);
    var s2 :- WriteFinalized(s1, delegated, meta.(lastUpdateExternalSlot := commit.slot));
    var s3 :- ClosePda(s2, state, validator);
    ClosePda(s3, CommitRecord(delegated), validator)
  }

  /** Metadata and record are rewritten in place; the recorded balance is the balance after settling. */
  function WriteFinalized(s: Store, delegated: Key, meta: DelegationMetadata): Result<Store> {
    var updated :- Overwrite(At(s, Metadata(delegated)).data, EncodeMetadata(meta));
    var s1 := SetData(s, Metadata(delegated), updated);
    :- Need(|At(s1, Record(delegated)).data| == RECORD_SIZE, InvalidAccountData);
    var s2 := SetData(s1, Record(delegated),
        PatchRecordLamports(At(s1, Record(delegated)).data, Lamports(s1, delegated)));
    Ok(SetData(s2, delegated, At(s2, CommitState(delegated)).data))
  }

  // ---- Undelegate ----

  /** Whether an address may hold a program that can be asked to take an account back. The system program and this
      program know no such instruction, and no program lives at an address this program derives. */
  predicate Callable(program: Key) {
    program != System && program != Dlp && !ProgramAddress(program)
  }

  /** Whether a program signs for an address in the call: for the addresses programs derive they do, for plain addresses
      only their keys could, and this program does not sign for the account it hands back. */
  predicate ProgramSigns(k: Key) {
    k.Derived? && Callable(k.program)
  }

  /** The owner program can open the account again: it can be called, and the account can be signed for. */
  predicate Reopenable(delegated: Key, ownerProgram: Key) {
    ProgramSigns(delegated) && Callable(ownerProgram)
  }

  /** What comes of the call: calling anything but a program that knows the instruction fails. */
  function Answer(ownerProgram: Key, reply: CpiReply): CpiReply {
    if Callable(ownerProgram) then reply else CpiFails
  }

  /** Accounts that only gain lamports in the call: protected ones, and those of the system program that nobody signs
      for. The validator signs. */
  predicate Sealed(s: Store, k: Key, validator: Key) {
    Protected(s, k) || (At(s, k).owner == System && k != validator && !ProgramSigns(k))
  }

  /** The runtime's rules for a call into another program, over the three accounts it is handed: sealed accounts keep
      owner and data and are not debited, and no lamports are made or lost. */
  predicate RuntimeAllows(s: Store, t: Store, delegated: Key, buffer: Key, validator: Key) {
    && (forall k <- {delegated, buffer, validator} :: Sealed(s, k, validator) ==> Kept(At(s, k), At(t, k)))
    && Lamports(t, delegated) + Lamports(t, buffer) + (if validator == delegated then 0 else Lamports(t, validator))
       == Lamports(s, delegated) + Lamports(s, buffer) + (if validator == delegated then 0 else Lamports(s, validator))
  }

  function CallOwnerProgram(s: Store, delegated: Key, buffer: Key, validator: Key, reply: CpiReply): Result<Store> {
    match reply
    case CpiFails => Err(CpiFailed)
    case CpiReturns(a, b, v) =>
      var t := s[delegated := a][buffer := b][validator := v];
      :- Need(RuntimeAllows(s, t, delegated, buffer, validator), CpiFailed);
      Ok(t)
  }

  /** Closes the delegated account to the validator, lets the owner program reopen it, checks the validator's
      balance and the data, and gives back what the account held above its rent minimum. */
  function ReopenByCpi(c: Chain, s: Store, validator: Key, delegated: Key, reply: CpiReply): Result<Store> {
    var before := Lamports(s, delegated);
    var buffer := UndelegateBuffer(delegated);
    var s1 :- ClosePda(s, delegated, validator);
    var s2 :- CallOwnerProgram(s1, delegated, buffer, validator, reply);
    var minimum := c.rent(|At(s2, delegated).data|);
    :- Need(Lamports(s2, validator) + minimum < U64_LIMIT, Overflow);
    :- Need(Lamports(s1, validator) == Lamports(s2, validator) + minimum, InvalidValidatorBalanceAfterCpi);
    :- Need(At(s2, delegated).data == At(s2, buffer).data, InvalidAccountDataAfterCpi);
    :- Need(minimum <= before, Overflow);
    Transfer(s2, validator, delegated, before - minimum)
  }

  /** Closes record and metadata, splitting what they held between the rent payer and the two vaults. */
  function Cleanup(s: Store, delegated: Key, reimbursement: Key, validator: Key): Result<Store> {
    var vaults := [ValidatorVault(validator), FeesVault];
    var s1 :- ClosePdaWithFees(s, Record(delegated), reimbursement, vaults, RENT_FEES_PERCENTAGE);
    ClosePdaWithFees(s1, Metadata(delegated), reimbursement, vaults, RENT_FEES_PERCENTAGE)
  }

  /** Stages the bytes in a buffer, reopens the account from it, and closes the buffer. */
  function ReturnData(c: Chain, s: Store, validator: Key, delegated: Key, reply: CpiReply): Result<Store> {
    var buffer, data := UndelegateBuffer(delegated), At(s, delegated).data;
    :- Uninitialized(s, buffer);
    var s1 :- CreatePda(c.rent, s, buffer, Dlp, |data|, validator);
    var s2 := SetData(s1, buffer, data);
    var s3 :- ReopenByCpi(c, s2, validator, delegated, reply);
    ClosePda(s3, buffer, validator)
  }

  /** The checks of undelegate, before anything is written. */
  function MayUndelegate(s: Store, signers: set<Key>, validator: Key, delegated: Key, ownerProgram: Key,
                         reimbursement: Key): Result<()> {
    var vault := ValidatorVault(validator);
    :- Signs(validator, signers);
    :- Initialized(s, delegated);
    :- Initialized(s, Record(delegated));
    :- Initialized(s, Metadata(delegated));
    :- Initialized(s, FeesVault);
    :- Initialized(s, vault);
    :- Uninitialized(s, CommitState(delegated));
    :- Uninitialized(s, CommitRecord(delegated));
    var record :- DecodeRecord(At(s, Record(delegated)).data);
    :- Need(record.owner == ownerProgram, InvalidAccountOwner);
    var meta :- DecodeMetadata(At(s, Metadata(delegated)).data);
    :- Need(meta.isUndelegatable, NotUndelegatable);
    :- Need(meta.rentPayer == reimbursement, InvalidReimbursementAddress);
    Ok(())
  }

  function HandleUndelegate(c: Chain, s: Store, signers: set<Key>,
                            validator: Key, delegated: Key, ownerProgram: Key, reimbursement: Key,
                            reply: CpiReply): Result<Store>
  {
    var _ :- MayUndelegate(s, signers, validator, delegated, ownerProgram, reimbursement);
    if At(s, delegated).data == [] then
      Cleanup(s[delegated := At(s, delegated).(owner := ownerProgram)], delegated, reimbursement, validator)
    else
      var s4 :- ReturnData(c, s, validator, delegated, Answer(ownerProgram, reply));
      Cleanup(s4, delegated, reimbursement, validator)
  }

  // ---- Vaults and fees ----

  /** A vault is an account of eight bytes. */
  const VAULT_SIZE: nat := 8

  function IsAdmin(c: Chain, admin: Key): Check {
    Need(c.admin == Some(admin), Unauthorized)
  }

  function HandleInitFeesVault(c: Chain, s: Store, signers: set<Key>, payer: Key): Result<Store> {
    var vault := FeesVault;
    :- Signs(payer, signers);
    :- Uninitialized(s, vault);
    CreatePda(c.rent, s, vault, Dlp, VAULT_SIZE, payer)
  }

  function HandleInitValidatorVault(c: Chain, s: Store, signers: set<Key>, payer: Key, admin: Key,
                                    identity: Key): Result<Store> {
    var vault := ValidatorVault(identity);
    :- Signs(payer, signers);
    :- Signs(admin, signers);
    :- IsAdmin(c, admin);
    :- Uninitialized(s, vault);
    CreatePda(c.rent, s, vault, Dlp, VAULT_SIZE, payer)
  }

  function HandleCloseValidatorVault(c: Chain, s: Store, signers: set<Key>, payer: Key, admin: Key,
                                     identity: Key): Result<Store> {
    var vault := ValidatorVault(identity);
    :- Signs(payer, signers);
    :- Signs(admin, signers);
    :- IsAdmin(c, admin);
    :- Initialized(s, vault);
    ClosePda(s, vault, identity)
  }

  /** A plain subtraction and a plain product of 64-bit numbers. */
  function PlainSub(c: Chain, a: u64, b: u64): Result<u64> {
    if b <= a then Ok(a - b)
    else if c.overflowChecks then Err(Panic)
    else Ok(a - b + U64_LIMIT)
  }

  function PlainMul(c: Chain, a: u64, b: u64): Result<u64> {
    if a * b < U64_LIMIT then Ok(a * b)
    else if c.overflowChecks then Err(Panic)
    else Ok(a * b % U64_LIMIT)
  }

  function HandleClaimValidatorFees(c: Chain, s: Store, signers: set<Key>, validator: Key,
                                    amount: Option<u64>): Result<Store> {
    var vault := ValidatorVault(validator);
    :- Signs(validator, signers);
    :- Initialized(s, FeesVault);
    :- Initialized(s, vault);
    var available :- PlainSub(c, Lamports(s, vault), c.rent(VAULT_SIZE));
    var claimed := match amount case None => available case Some(a) => a;
    :- Need(claimed <= available, InsufficientFunds);
    var product :- PlainMul(c, claimed, PROTOCOL_FEES_PERCENTAGE);
    MoveFees(s, validator, claimed, product / 100)
  }

  /** Credits the protocol's vault, debits the validator's, and pays the validator the rest. */
  function MoveFees(s: Store, validator: Key, claimed: u64, protocolFees: u64): Result<Store> {
    var vault := ValidatorVault(validator);
    var remaining := if protocolFees <= claimed then claimed - protocolFees else 0;
    var s1 :- Credit(s, FeesVault, protocolFees);
    :- Need(claimed <= Lamports(s1, vault), InsufficientFunds);
    var s2 := s1[vault := At(s1, vault).(lamports := Lamports(s1, vault) - claimed)];
    Credit(s2, validator, remaining)
  }

  function HandleClaimProtocolFees(c: Chain, s: Store, signers: set<Key>, admin: Key): Result<Store> {
    var minimum := c.rent(VAULT_SIZE);
    :- Signs(admin, signers);
    :- Initialized(s, FeesVault);
    :- IsAdmin(c, admin);
    :- Need(minimum <= Lamports(s, FeesVault), InsufficientFunds);
    var amount := Lamports(s, FeesVault) - minimum;
    var s1 := s[FeesVault := At(s, FeesVault).(lamports := minimum)];
    Credit(s1, admin, amount)
  }

  // ---- Program config ----

  function MayWhitelist(c: Chain, authority: Key, program: Key): Check {
    Need(c.admin.Some? && (c.admin.value == authority || c.upgradeAuthority(program) == Some(authority)), Unauthorized)
  }

  function HandleWhitelist(c: Chain, s: Store, signers: set<Key>,
                           authority: Key, validator: Key, program: Key, insert: bool, stale: Bytes): Result<Store>
  {
    var mayWhitelist := MayWhitelist(c, authority, program);
    :- Signs(authority, signers);
    :- mayWhitelist;
    var (s1, approved) :- LoadConfig(c, s, authority, program);
    StoreConfig(c, s1, authority, program, if insert then approved + {validator} else approved - {validator}, stale)
  }

  /** Resizes the config to what the set needs and writes the set over it. */
  function StoreConfig(c: Chain, s: Store, authority: Key, program: Key, approved: set<Key>,
                       stale: Bytes): Result<Store> {
    var config := Config(program);
    :- Need(|approved| < 0x1_0000_0000, InvalidAccountData);
    var s1 :- ResizePda(c.rent, s, authority, config, ConfigSize(approved), stale);
    var bytes :- Overwrite(At(s1, config).data, EncodeConfig(c.listing(approved)));
    Ok(SetData(s1, config, bytes))
  }

  /** An absent config is created empty; a present one is parsed. */
  function LoadConfig(c: Chain, s: Store, authority: Key, program: Key): Result<(Store, set<Key>)> {
    if At(s, Config(program)).owner == System then
      var s1 :- CreatePda(c.rent, s, Config(program), Dlp, 0, authority);
      Ok((s1, {}))
    else
      var approved :- DecodeConfig(At(s, Config(program)).data);
      Ok((s, approved))
  }

  // ---- Escrow accounts ----

  function HandleTopUpEscrow(c: Chain, s: Store, signers: set<Key>, payer: Key, of: Key, index: byte,
                             amount: u64): Result<Store> {
    var escrow := Escrow(of, index);
    :- Signs(payer, signers);
    var s1 :- if At(s, escrow).owner == System then CreatePda(c.rent, s, escrow, System, 0, payer) else Ok(s);
    if amount > 0 then Transfer(s1, payer, escrow, amount) else Ok(s1)
  }

  /** Assigning needs the current owner to be the system program, unless nothing changes. */
  function AssignToDlp(s: Store, k: Key): Result<Store> {
    if At(s, k).owner == Dlp then Ok(s)
    else if At(s, k).owner != System then Err(ModifiedProgramId)
    else Ok(s[k := At(s, k).(owner := Dlp)])
  }

  function HandleDelegateEscrow(c: Chain, s: Store, signers: set<Key>, payer: Key, of: Key, index: byte,
                                args: DelegateArgs): Result<Store> {
    var escrow := Escrow(of, index);
    :- Signs(payer, signers);
    :- Signs(of, signers);
    var s1 :- AssignToDlp(s, escrow);
    HandleDelegate(c, s1, signers + {escrow}, payer, escrow, System, args.(seeds := EscrowSeeds(of, index)))
  }

  function HandleCloseEscrow(c: Chain, s: Store, signers: set<Key>, payer: Key, index: byte): Result<Store> {
    var escrow := Escrow(payer, index);
    :- Signs(payer, signers);
    :- Need(At(s, escrow).owner == System, InvalidAccountOwner);
    if Lamports(s, escrow) == 0 then Ok(s) else Transfer(s, escrow, payer, Lamports(s, escrow))
  }

  // ---- Dispatch ----

  function Handle(c: Chain, s: Store, signers: set<Key>, ix: Instruction): Result<Store> {
    match ix
    case Delegate(payer, delegated, ownerProgram, args) =>
        HandleDelegate(c, s, signers, payer, delegated, ownerProgram, args)
    case Commit(validator, delegated, args) => HandleCommit(c, s, signers, validator, delegated, args)
    case CommitFromBuffer(validator, delegated, stateBuffer, args) =>
      HandleCommit(c, s, signers, validator, delegated, args.(state := At(s, stateBuffer).data))
    case Finalize(validator, delegated) => HandleFinalize(c, s, signers, validator, delegated)
    case Undelegate(validator, delegated, ownerProgram, reimbursement, reply) =>
      HandleUndelegate(c, s, signers, validator, delegated, ownerProgram, reimbursement, reply)
    case InitFeesVault(payer) => HandleInitFeesVault(c, s, signers, payer)
    case InitValidatorVault(payer, admin, identity) => HandleInitValidatorVault(c, s, signers, payer, admin, identity)
    case CloseValidatorVault(payer, admin, identity) => HandleCloseValidatorVault(c, s, signers, payer, admin, identity)
    case ClaimValidatorFees(validator, amount) => HandleClaimValidatorFees(c, s, signers, validator, amount)
    case ClaimProtocolFees(admin) => HandleClaimProtocolFees(c, s, signers, admin)
    case Whitelist(authority, validator, program, insert, stale) =>
      HandleWhitelist(c, s, signers, authority, validator, program, insert, stale)
    case TopUpEscrow(payer, of, index, amount) => HandleTopUpEscrow(c, s, signers, payer, of, index, amount)
    case DelegateEscrow(payer, of, index, args) => HandleDelegateEscrow(c, s, signers, payer, of, index, args)
    case CloseEscrow(payer, index) => HandleCloseEscrow(c, s, signers, payer, index)
  }

  /** An instruction either takes effect as a whole or, on any error, leaves the store as it was. */
  function Exec(c: Chain, s: Store, signers: set<Key>, ix: Instruction): Store {
    if Handle(c, s, signers, ix).Ok? then Handle(c, s, signers, ix).value else s
  }

  predicate Succeeds(c: Chain, s: Store, signers: set<Key>, ix: Instruction) {
    Handle(c, s, signers, ix).Ok?
  }
}
