/** Small concrete runs: sessions happen, and accounts can be locked. */
module Witnesses {
  import opened Outcomes
  import opened Octets
  import opened Layouts
  import opened Store
  import opened Handlers
  import opened Sessions
  import opened Invariants
  import opened SessionEffects
  import opened ConfigEffects
  import opened Runs
  import opened Histories
  import opened Locks
  import opened EscrowEffects
  import opened Guarantees
  import opened Progress
  import opened Lifecycle

  // ---- The stage ----

  /** Some order for every set of addresses. */
  ghost function Listed(keys: set<Key>): (r: seq<Key>)
    ensures Listing(r, keys)
    decreases |keys|
  {
    if keys == {} then []
    else
      var k :| k in keys;
      var rest := Listed(keys - {k});
      assert (set j | j in [k] + rest) == {k} + (set j | j in rest);
      [k] + rest
  }

  const WALLET: Key := User(0, true)
  const PROGRAM: Key := User(1, true)
  const HOLDER: Key := User(2, true)
  const SEEDS: seq<Bytes> := [[B(1)]]
  const ACCOUNT: Key := Derived(PROGRAM, SEEDS)
  const ESCROW: Key := Escrow(WALLET, 0)

  const SEVEN: Bytes := [B(7)]

  ghost function SmallChain(): Chain {
    Chain(true, _ => 1, Some(WALLET), _ => None, keys => Listed(keys))
  }

  /** A wallet, which is also the admin, and two accounts assigned to the program: one with data that another program
      derives, and an empty one on the curve. */
  function SmallStore(): Store {
    map[WALLET := Account(System, 1000, [])][ACCOUNT := Account(Dlp, 5, SEVEN)][HOLDER := Account(Dlp, 5, [])]
  }

  lemma SmallStoreTotal()
    ensures Total(SmallStore()) == 1010
  {
    var empty: Store := map[];
    var one := empty[WALLET := Account(System, 1000, [])];
    TotalUpdate(empty, WALLET, Account(System, 1000, []));
    TotalUpdate(one, ACCOUNT, Account(Dlp, 5, SEVEN));
    TotalUpdate(one[ACCOUNT := Account(Dlp, 5, SEVEN)], HOLDER, Account(Dlp, 5, []));
    assert Total(empty) == 0;
    assert one == map[WALLET := Account(System, 1000, [])];
  }

  lemma SmallStarts()
    ensures SmallChain().Valid() && Genesis(SmallStore()) && Inv(SmallChain(), SmallStore())
  {
    GenesisInv(SmallChain(), SmallStore());
  }

  lemma WalletAddress()
    ensures !ProgramAddress(WALLET) && Delegatable(ESCROW) && Delegatable(HOLDER) && Delegatable(ACCOUNT)
  {}

  /** One more account is created for the wallet: it costs one lamport, and all other accounts stay. */
  lemma WalletCreates(s: Store, target: Key, t: Store)
    requires ProgramAddress(target) && Fresh(s, target) && Lamports(s, target) == 0
    requires Holds(At(s, WALLET), System, Lamports(s, WALLET), []) && Lamports(s, WALLET) > 0 && Total(s) < U64_LIMIT
    requires CreatePda(SmallChain().rent, s, target, Dlp, 8, WALLET).Ok? ==>
               t == CreatePda(SmallChain().rent, s, target, Dlp, 8, WALLET).value
    ensures CreatePda(SmallChain().rent, s, target, Dlp, 8, WALLET) == Ok(t)
    ensures Total(t) == Total(s) && Owned(t, target)
    ensures Holds(At(t, WALLET), System, Lamports(s, WALLET) - 1, [])
    ensures forall k {:trigger At(t, k)} :: k != target && k != WALLET ==> At(t, k) == At(s, k)
  {
    hide Total, CreatePda, Frame, Zeroes;
    CreateSucceedsIff(SmallChain().rent, s, target, Dlp, 8, WALLET);
    CreatePdaEffect(SmallChain().rent, s, target, Dlp, 8, WALLET, t);
  }

  /** What the stage looks like once the two vaults are open: the wallet has two lamports less, and nothing else of the
      program exists. */
  ghost predicate Staged(s: Store) {
    && Total(s) == 1010 && Owned(s, FeesVault) && Owned(s, ValidatorVault(WALLET))
    && Holds(At(s, WALLET), System, 998, [])
    && At(s, ACCOUNT) == Account(Dlp, 5, SEVEN) && At(s, HOLDER) == Account(Dlp, 5, [])
    && forall k {:trigger At(s, k)} ::
         k !in {WALLET, ACCOUNT, HOLDER, FeesVault, ValidatorVault(WALLET)} ==> At(s, k) == EMPTY
  }

  function OpenVaults(): seq<Move> {
    [Submit(InitFeesVault(WALLET), {WALLET})] + [Submit(InitValidatorVault(WALLET, WALLET, WALLET), {WALLET})]
  }

  lemma VaultsOpen() returns (s: Store)
    ensures s == Run(SmallChain(), SmallStore(), OpenVaults()) && Inv(SmallChain(), s) && Staged(s)
  {
    hide Total, CreatePda, Listed, Run, Genesis, SessionOk, VaultOk, ConfigOk, Chain.Valid;
    var c, s0 := SmallChain(), SmallStore();
    SmallStoreTotal();
    var m1, m2 := OpenVaults()[0], OpenVaults()[1];
    var s1 := Exec(c, s0, {WALLET}, m1.ix);
    WalletCreates(s0, FeesVault, s1);
    s := Exec(c, s1, {WALLET}, m2.ix);
    WalletCreates(s1, ValidatorVault(WALLET), s);
    forall k | k !in {WALLET, ACCOUNT, HOLDER, FeesVault, ValidatorVault(WALLET)} ensures At(s, k) == EMPTY {
      assert At(s, k) == At(s1, k) == At(s0, k);
    }
    RunTwo(c, s0, m1, m2);
    SmallStarts();
    RunKeeps(c, s0, OpenVaults());
  }

  lemma RunTwo(c: Chain, s: Store, m1: Move, m2: Move)
    ensures Run(c, s, [m1] + [m2]) == Next(c, Next(c, s, m1), m2)
  {
    hide Next;
    RunOne(c, s, m1);
    RunOne(c, Next(c, s, m1), m2);
    RunAppend(c, s, [m1], [m2]);
  }

  const ARGS: DelegateArgs := DelegateArgs(0, [], None, 0)

  /** A delegation costs the wallet the rent of record and metadata. */
  lemma SmallDelegation(s: Store, d: Key, program: Key, args: DelegateArgs)
    requires Total(s) == 1010 && Holds(At(s, WALLET), System, Lamports(s, WALLET), []) && Lamports(s, WALLET) >= 2
    requires Delegatable(d) && d != WALLET && Owned(s, d)
    requires At(s, Record(d)) == EMPTY && At(s, Metadata(d)) == EMPTY && At(s, DelegateBuffer(d, program)) == EMPTY
    requires BelongsTo(d, program, args.seeds) && Encodable(args.seeds)
    ensures var r := HandleDelegate(SmallChain(), s, {WALLET, d}, WALLET, d, program, args);
            && r.Ok? && Total(r.value) == 1010 && Holds(At(r.value, WALLET), System, Lamports(s, WALLET) - 2, [])
            && forall k {:trigger At(r.value, k)} ::
                 k != WALLET && k != Record(d) && k != Metadata(d) ==> At(r.value, k) == At(s, k)
  {
    hide Total, CreatePda, Frame, Zeroes, EncodeRecord, EncodeMetadata, HandleDelegate, SessionKeys, DelegateBuffer,
         DecodeRecord, BelongsTo, Delegatable;
    StagingIsDerived(d, program);
    WalletAddress();
    DelegateSucceedsIff(SmallChain(), s, {WALLET, d}, WALLET, d, program, args);
    var t := HandleDelegate(SmallChain(), s, {WALLET, d}, WALLET, d, program, args).value;
    var u := DelegateAccounts(SmallChain(), s, {WALLET, d}, WALLET, d, program, args, t);
    assert At(u, DelegateBuffer(d, program)) == At(s, DelegateBuffer(d, program));
    assert t == u;
  }

  lemma StagedDelegation(s: Store, d: Key, program: Key, args: DelegateArgs)
    requires Staged(s) && (d == ACCOUNT || d == HOLDER)
    requires BelongsTo(d, program, args.seeds) && Encodable(args.seeds)
    requires DelegateBuffer(d, program) != ACCOUNT
    ensures At(s, DelegateBuffer(d, program)) == EMPTY
    ensures var r := HandleDelegate(SmallChain(), s, {WALLET, d}, WALLET, d, program, args);
            && r.Ok? && Total(r.value) == 1010 && Holds(At(r.value, WALLET), System, 996, [])
            && forall k {:trigger At(r.value, k)} ::
                 k != WALLET && k != Record(d) && k != Metadata(d) ==> At(r.value, k) == At(s, k)
  {
    hide Total, HandleDelegate, DelegateBuffer, Encodable, BelongsTo;
    StagingIsDerived(d, program);
    SmallDelegation(s, d, program, args);
  }

  /** The staging account has two seeds. */
  lemma StagingApart(d: Key, program: Key)
    ensures DelegateBuffer(d, program) != ACCOUNT
  {
    assert |SEEDS| == 1;
  }

  // ---- A session that happens ----

  /** Nothing above is vacuous: there are a chain and a run from a store without accounts of the program in which an
      account with data is delegated, committed, finalized and handed back. */
  lemma SessionsHappen() returns (c: Chain, s: Store, before: seq<Move>, after: seq<Move>, d: Key)
    ensures c.Valid() && Genesis(s) && Inv(c, s)
    ensures Inv(c, Run(c, s, before)) && Abs(Run(c, s, before), d).Live? && Abs(Run(c, s, before), d).data != []
    ensures Inv(c, Run(c, s, before + after)) && Abs(Run(c, s, before + after), d) == Idle
    ensures At(Run(c, s, before + after), d).data == Abs(Run(c, s, before), d).data
  {
    hide Total, Run, SessionOk, VaultOk, ConfigOk, Chain.Valid, Abs, Genesis, HandleDelegate, Listed, CreatePda,
         Ready, Turns, Cooperates, Spares, Returned, Staged, BelongsTo, DelegateBuffer;
    c, s, d := SmallChain(), SmallStore(), ACCOUNT;
    SmallStarts();
    var s2 := VaultsOpen();
    var args := ARGS.(seeds := SEEDS);
    var m := Submit(Delegate(WALLET, ACCOUNT, PROGRAM, args), {WALLET, ACCOUNT});
    before := OpenVaults() + [m];
    AccountSuffices(s2);
    var owner, others := st => Cooperative(c, st, WALLET, ACCOUNT, PROGRAM), (st: Store) => st;
    CooperationPossible(c, WALLET, ACCOUNT, PROGRAM);
    NobodyActs(c, WALLET, ACCOUNT);
    DelegatedIsReady(c, s2, m.signers, WALLET, WALLET, ACCOUNT, PROGRAM, args);
    after := DelegatedComesBack(c, s2, m.signers, WALLET, WALLET, ACCOUNT, PROGRAM, args, owner, others);
    RunOne(c, s2, m);
    RunAppend(c, s, OpenVaults(), [m]);
    RunAppend(c, s, before, after);
    RunKeeps(c, s, before);
    RunKeeps(c, s, before + after);
    ReadyLive(c, Run(c, s, before), WALLET, ACCOUNT);
    LiveData(Run(c, s, before), ACCOUNT);
  }

  /** The delegation of the account with data, and a wallet that can hand it back. */
  lemma AccountSuffices(s: Store)
    requires Staged(s)
    ensures var args := ARGS.(seeds := SEEDS);
            var m := Submit(Delegate(WALLET, ACCOUNT, PROGRAM, args), {WALLET, ACCOUNT});
            && Total(s) < U64_LIMIT / 10 && Sufficient(SmallChain(), s, m, WALLET)
            && Recoverable(s, ACCOUNT, PROGRAM) == SEVEN && At(Next(SmallChain(), s, m), ACCOUNT).data == SEVEN
  {
    hide Total, HandleDelegate, DelegateBuffer, Listed, BelongsTo;
    var args := ARGS.(seeds := SEEDS);
    SeedsFit();
    StagingApart(ACCOUNT, PROGRAM);
    StagedDelegation(s, ACCOUNT, PROGRAM, args);
    assert Approved(s, PROGRAM).None?;
  }

  lemma SeedsFit()
    ensures BelongsTo(ACCOUNT, PROGRAM, SEEDS) && Encodable(SEEDS)
  {}

  lemma NobodyActs(c: Chain, v: Key, d: Key)
    ensures Spares(c, v, d, (s: Store) => s)
  {
    hide Total, SessionOk, VaultOk, ConfigOk, Chain.Valid, Abs, Locked, Advance, Returned, Funds;
  }

  // ---- Accounts that are locked ----

  const RELEASE: CommitArgs := CommitArgs(0, 1, true, SEVEN)

  /** A fresh session of an account that cannot be opened again, and a wallet with a vault that can pay for a commit. */
  ghost predicate Lockable(s: Store, d: Key) {
    && Total(s) == 1010 && Holds(At(s, WALLET), System, Lamports(s, WALLET), []) && Lamports(s, WALLET) >= 3
    && Owned(s, ValidatorVault(WALLET))
    && Lamports(s, CommitState(d)) == 0 && Lamports(s, CommitRecord(d)) == 0
    && SessionOk(s, d)
    && var x := Abs(s, d);
       && x.Live? && x.slot == 0 && !x.flag && x.pending.None?
       && !Reopenable(d, x.owner) && At(s, Config(x.owner)) == EMPTY
  }

  /** One byte is committed to an account that cannot be opened again, with undelegation allowed, and finalized. */
  lemma SmallLock(s: Store, d: Key, t: Store, u: Store)
    requires Inv(SmallChain(), s) && Lockable(s, d)
    requires t == Exec(SmallChain(), s, {WALLET}, Commit(WALLET, d, RELEASE))
    requires u == Exec(SmallChain(), t, {WALLET}, Finalize(WALLET, d))
    ensures HandleCommit(SmallChain(), s, {WALLET}, WALLET, d, RELEASE) == Ok(t)
    ensures HandleFinalize(SmallChain(), t, {WALLET}, WALLET, d) == Ok(u)
    ensures SessionOk(u, d) && Locked(u, d) && At(u, d).data == SEVEN && Abs(u, d).owner == Abs(s, d).owner
  {
    hide Total, Frame, Listed, HandleCommit, HandleFinalize, SessionOk, Abs, SessionKeys, Inv, ProgramAddress,
         Reopenable;
    WalletAddress();
    LiveRecord(s, d);
    LiveApart(s, d, WALLET);
    assert Approved(s, Abs(s, d).owner).None?;
    CommitSucceedsIff(SmallChain(), s, {WALLET}, WALLET, d, RELEASE);
    SlotStale(s, d);
    CommitEffect(SmallChain(), s, {WALLET}, WALLET, d, RELEASE, t);
    assert Owned(t, ValidatorVault(WALLET)) by {
      SessionAddresses(d, WALLET);
      VaultsApart(d, WALLET);
      KeptBy(s, t, SessionKeys(d), ValidatorVault(WALLET));
    }
    FinalizeSucceedsIff(SmallChain(), t, {WALLET}, WALLET, d);
    FinalizeEffect(SmallChain(), t, {WALLET}, WALLET, d, u);
    LiveData(u, d);
  }

  lemma LiveApart(s: Store, d: Key, v: Key)
    requires SessionOk(s, d) && Abs(s, d).Live? && At(s, v).owner == System
    ensures v != d
  {
    hide RecordOk, MetadataOk, PendingOk, RecordOf, CommitOf;
  }

  lemma SlotStale(s: Store, d: Key)
    requires SessionOk(s, d) && Abs(s, d).Live? && Abs(s, d).slot == 0
    ensures !Stale(s, d, 0)
  {
    hide RecordOk, PendingOk, RecordOf, CommitOf;
  }

  /** Two more moves lock an account that a run has delegated. */
  lemma LockFrom(before: seq<Move>, s: Store, d: Key) returns (moves: seq<Move>)
    requires s == Run(SmallChain(), SmallStore(), before) && Lockable(s, d)
    ensures |moves| == |before| + 2
    ensures var t := Run(SmallChain(), SmallStore(), moves);
            && Inv(SmallChain(), t) && SessionOk(t, d) && Locked(t, d) && At(t, d).data == SEVEN
            && Abs(t, d).owner == Abs(s, d).owner
  {
    hide Total, Run, SessionOk, Chain.Valid, Abs, Genesis, Listed, Locked, HandleCommit, HandleFinalize, Inv,
         SmallStore, SmallChain, Lockable;
    SmallStarts();
    var c := SmallChain();
    var m1, m2 := Submit(Commit(WALLET, d, RELEASE), {WALLET}), Submit(Finalize(WALLET, d), {WALLET});
    var t := Next(c, s, m1);
    RunKeeps(c, SmallStore(), before);
    ByWallet(s, m1.ix);
    ByWallet(t, m2.ix);
    SmallLock(s, d, t, Next(c, t, m2));
    RunTwo(c, s, m1, m2);
    moves := before + ([m1] + [m2]);
    RunAppend(c, SmallStore(), before, [m1] + [m2]);
    RunKeeps(c, SmallStore(), moves);
  }

  lemma ByWallet(s: Store, ix: Instruction)
    ensures Next(SmallChain(), s, Submit(ix, {WALLET})) == Exec(SmallChain(), s, {WALLET}, ix)
  {
    hide Exec;
  }

  /** Locked accounts are reachable, whatever program they name as their owner: open the vaults, delegate an account on
      the curve, commit one byte with undelegation allowed, and finalize. */
  lemma PlainAccountsCanBeLocked(program: Key) returns (c: Chain, s: Store, moves: seq<Move>, d: Key)
    ensures c.Valid() && Genesis(s) && |moves| == 5 && OnCurve(d)
    ensures var t := Run(c, s, moves);
            Inv(c, t) && SessionOk(t, d) && Locked(t, d) && Abs(t, d).owner == program && At(t, d).data != []
  {
    hide Total, Run, SessionOk, Chain.Valid, Abs, Genesis, HandleDelegate, Listed, Locked, Inv, DelegateBuffer,
         SmallStore, SmallChain, Staged, Lockable;
    c, s, d := SmallChain(), SmallStore(), HOLDER;
    SmallStarts();
    WalletAddress();
    var s2 := VaultsOpen();
    var m := Submit(Delegate(WALLET, HOLDER, program, ARGS), {WALLET, HOLDER});
    var s3 := Next(c, s2, m);
    HolderDelegates(s2, program);
    RunOne(c, s2, m);
    RunAppend(c, s, OpenVaults(), [m]);
    moves := LockFrom(OpenVaults() + [m], s3, HOLDER);
  }

  lemma HolderDelegates(s: Store, program: Key)
    requires Inv(SmallChain(), s) && Staged(s)
    ensures var t := Next(SmallChain(), s, Submit(Delegate(WALLET, HOLDER, program, ARGS), {WALLET, HOLDER}));
            Lockable(t, HOLDER) && Abs(t, HOLDER).owner == program
  {
    hide Total, HandleDelegate, DelegateBuffer, Listed, SessionOk, Abs, Frame, SessionKeys, Inv;
    StagingApart(HOLDER, program);
    StagedDelegation(s, HOLDER, program, ARGS);
    InvSession(SmallChain(), s, HOLDER);
    var t := HandleDelegate(SmallChain(), s, {WALLET, HOLDER}, WALLET, HOLDER, program, ARGS).value;
    DelegateEffect(SmallChain(), s, {WALLET, HOLDER}, WALLET, HOLDER, program, ARGS, t);
  }

  // ---- The same for an escrow account ----

  /** An escrow account is opened with nothing but its rent. */
  lemma SmallTopUp(s: Store, t: Store)
    requires Staged(s) && t == Exec(SmallChain(), s, {WALLET}, TopUpEscrow(WALLET, WALLET, 0, 0))
    ensures Total(t) == 1010 && Holds(At(t, WALLET), System, 997, []) && Holds(At(t, ESCROW), System, 1, [])
    ensures forall k {:trigger At(t, k)} :: k != WALLET && k != ESCROW ==> At(t, k) == At(s, k)
  {
    hide Total, CreatePda, Frame, Zeroes, Listed;
    CreateSucceedsIff(SmallChain().rent, s, ESCROW, System, 0, WALLET);
    assert HandleTopUpEscrow(SmallChain(), s, {WALLET}, WALLET, WALLET, 0, 0) == Ok(t);
    TopUpEffect(SmallChain(), s, {WALLET}, WALLET, WALLET, 0, 0, t);
    CreatePdaEffect(SmallChain().rent, s, ESCROW, System, 0, WALLET, t);
  }

  /** It is delegated: assigned to the program, then the nested delegation. */
  lemma SmallEscrowDelegation(s: Store, t: Store)
    requires Total(s) == 1010 && Holds(At(s, WALLET), System, 997, []) && Holds(At(s, ESCROW), System, 1, [])
    requires At(s, Record(ESCROW)) == EMPTY && At(s, Metadata(ESCROW)) == EMPTY
            && At(s, DelegateBuffer(ESCROW, System)) == EMPTY
    requires t == Exec(SmallChain(), s, {WALLET}, DelegateEscrow(WALLET, WALLET, 0, ARGS))
    ensures HandleDelegateEscrow(SmallChain(), s, {WALLET}, WALLET, WALLET, 0, ARGS) == Ok(t)
    ensures Total(t) == 1010 && Holds(At(t, WALLET), System, 995, [])
    ensures forall k {:trigger At(t, k)} ::
              k != WALLET && k != ESCROW && k != Record(ESCROW) && k != Metadata(ESCROW) ==> At(t, k) == At(s, k)
  {
    hide Total, Frame, Listed, HandleDelegate, SessionKeys, DelegateBuffer, EscrowSeeds, BelongsTo, Encodable;
    var s1 := s[ESCROW := At(s, ESCROW).(owner := Dlp)];
    RewriteEffect(s, ESCROW, At(s1, ESCROW));
    StagingIsDerived(ESCROW, System);
    EscrowSeedsFit();
    SmallDelegation(s1, ESCROW, System, ARGS.(seeds := EscrowSeeds(WALLET, 0)));
    assert {WALLET} + {ESCROW} == {WALLET, ESCROW};
  }

  lemma EscrowSeedsFit()
    ensures Encodable(EscrowSeeds(WALLET, 0)) && BelongsTo(ESCROW, System, EscrowSeeds(WALLET, 0))
  {}

  lemma SmallEscrow(s: Store, s3: Store, s4: Store)
    requires Staged(s) && Inv(SmallChain(), s3)
    requires s3 == Exec(SmallChain(), s, {WALLET}, TopUpEscrow(WALLET, WALLET, 0, 0))
    requires s4 == Exec(SmallChain(), s3, {WALLET}, DelegateEscrow(WALLET, WALLET, 0, ARGS))
    ensures Lockable(s4, ESCROW)
  {
    hide Total, Listed, HandleDelegateEscrow, EscrowSeeds, DelegateBuffer, Exec, SessionOk, Abs, Inv, Frame,
         SessionKeys;
    SmallTopUp(s, s3);
    StagingIsDerived(ESCROW, System);
    StagingApart(ESCROW, System);
    assert At(s3, DelegateBuffer(ESCROW, System)) == At(s, DelegateBuffer(ESCROW, System)) == EMPTY;
    SmallEscrowDelegation(s3, s4);
    InvSession(SmallChain(), s3, ESCROW);
    DelegateEscrowEffect(SmallChain(), s3, {WALLET}, WALLET, WALLET, 0, ARGS, s4);
  }

  /** So are locked escrow accounts: with one more instruction, the first top-up. */
  lemma EscrowsCanBeLocked() returns (c: Chain, s: Store, moves: seq<Move>, d: Key)
    ensures c.Valid() && Genesis(s) && |moves| == 6 && d.Escrow?
    ensures var t := Run(c, s, moves);
            Inv(c, t) && SessionOk(t, d) && Locked(t, d) && At(t, d).data != []
  {
    hide Total, Run, SessionOk, Chain.Valid, Abs, Genesis, Listed, Locked, Inv, SmallStore, SmallChain, Staged,
         Lockable;
    c, s, d := SmallChain(), SmallStore(), ESCROW;
    SmallStarts();
    var s2 := VaultsOpen();
    var m3, m4 := Submit(TopUpEscrow(WALLET, WALLET, 0, 0), {WALLET}),
                  Submit(DelegateEscrow(WALLET, WALLET, 0, ARGS), {WALLET});
    var s3 := Next(c, s2, m3);
    ByWallet(s2, m3.ix);
    ByWallet(s3, m4.ix);
    StepKeeps(c, s2, m3);
    SmallEscrow(s2, s3, Next(c, s3, m4));
    RunTwo(c, s2, m3, m4);
    RunAppend(c, s, OpenVaults(), [m3] + [m4]);
    moves := LockFrom(OpenVaults() + ([m3] + [m4]), Next(c, s3, m4), ESCROW);
  }
}
