/** A whole session, from delegation to the return of the account. */
module Lifecycle {
  import opened Outcomes
  import opened Octets
  import opened Layouts
  import opened Store
  import opened Handlers
  import opened Sessions
  import opened Invariants
  import opened SessionEffects
  import opened ConfigEffects
  import opened Runs
  import opened Histories
  import opened Locks
  import opened Guarantees
  import opened Progress

  /** The bytes a delegation stages, if the account can be opened again to hold them. */
  function Recoverable(s: Store, d: Key, program: Key): Bytes {
    var staged := At(s, DelegateBuffer(d, program)).data;
    if !Reopenable(d, program) then [] else if staged == [] then At(s, d).data else staged
  }

  /** A validator that can hand the account back after its delegation. */
  ghost predicate Sufficient(c: Chain, s: Store, m: Move, v: Key)
    requires m.Submit? && m.ix.Delegate?
  {
    var t, d, program := Next(c, s, m), m.ix.delegated, m.ix.ownerProgram;
    var data := Recoverable(s, d, program);
    && Legal(s, m) && Succeeds(c, s, m.signers, m.ix)
    && Owned(s, FeesVault) && Owned(s, ValidatorVault(v)) && Wallet(t, v)
    && (Approved(s, program).None? || v in Approved(s, program).value)
    && c.rent(|data|) + c.rent(88) <= Lamports(t, v)
    && (data != [] ==> c.rent(|data|) <= Lamports(s, d))
  }

  /** A fresh delegation is ready to be handed back by any solvent validator the owner program approves. */
  lemma DelegatedIsReady(c: Chain, s: Store, signers: set<Key>, payer: Key, v: Key, d: Key, program: Key,
                         args: DelegateArgs)
    requires Inv(c, s) && c.Valid() && Total(s) < U64_LIMIT / 10
    requires Sufficient(c, s, Submit(Delegate(payer, d, program, args), signers), v)
    ensures var t := Next(c, s, Submit(Delegate(payer, d, program, args), signers));
            && Ready(c, t, v, d) && Remaining(Abs(t, d)) == 3
            && Returned(d, Abs(t, d)) == Recoverable(s, d, program)
  {
    hide HandleDelegate, DelegateBuffer, Total, Frame, SessionOk, SessionKeys, VaultOk, ConfigOk, Approved,
         Chain.Valid, Abs, Inv, Next, Legal, Succeeds, ProgramAddress, Delegatable;
    var ix := Delegate(payer, d, program, args);
    var m := Submit(ix, signers);
    var t := Next(c, s, m);
    SuccessIsAuthorized(c, s, signers, ix);
    SignerPlain(s, m, payer);
    SignerPlain(s, m, d);
    InvSession(c, s, d);
    PlainDelegatable(d);
    assert HandleDelegate(c, s, signers, payer, d, program, args) == Ok(t) by { DelegateTakesEffect(c, s, m); }
    DelegateEffect(c, s, signers, payer, d, program, args, t);
    StepKeeps(c, s, m);
    SessionAddresses(d, v);
    KeptBy(s, t, SessionKeys(d), FeesVault) by { VaultsApart(d, v); }
    KeptBy(s, t, SessionKeys(d), ValidatorVault(v)) by { VaultsApart(d, v); }
    ApprovedFramed(s, t, program, SessionKeys(d)) by { ConfigApart(d, program); }
  }

  lemma PlainDelegatable(d: Key)
    requires !ProgramAddress(d)
    ensures Delegatable(d)
  {}

  lemma DelegateTakesEffect(c: Chain, s: Store, m: Move)
    requires m.Submit? && m.ix.Delegate? && Legal(s, m) && Succeeds(c, s, m.signers, m.ix)
    ensures HandleDelegate(c, s, m.signers, m.ix.payer, m.ix.delegated, m.ix.ownerProgram, m.ix.delegateArgs)
            == Ok(Next(c, s, m))
  {
    hide HandleDelegate;
  }

  lemma VaultsApart(d: Key, v: Key)
    requires Delegatable(d)
    ensures FeesVault !in SessionKeys(d) && ValidatorVault(v) !in SessionKeys(d)
  {}

  lemma ConfigApart(d: Key, program: Key)
    requires Delegatable(d)
    ensures Config(program) !in SessionKeys(d)
  {}

  /** Out and back: after any delegation three instructions suffice for such a validator, with a cooperating owner
      program, to hand the account back with the very bytes it was delegated with; or empty, if it cannot be opened
      again. */
  lemma DelegatedComesBack(c: Chain, s: Store, signers: set<Key>, payer: Key, v: Key, d: Key, program: Key,
                           args: DelegateArgs, owner: Store -> CpiReply, others: Store -> Store)
    returns (moves: seq<Move>)
    requires Inv(c, s) && c.Valid() && Total(s) < U64_LIMIT / 10
    requires Sufficient(c, s, Submit(Delegate(payer, d, program, args), signers), v)
    requires Cooperates(c, v, d, owner) && Spares(c, v, d, others)
    ensures |moves| <= 6
    ensures var t := Next(c, s, Submit(Delegate(payer, d, program, args), signers));
            var u := Run(c, t, moves);
            && Turns(c, t, v, moves, owner, others)
            && SessionOk(u, d) && Abs(u, d) == Idle && At(u, d).data == Recoverable(s, d, program)
  {
    hide HandleDelegate, DelegateBuffer, Total, SessionOk, Approved, Chain.Valid, Abs, Inv, Next, Legal, Succeeds,
         Ready, Turns, Cooperates, Spares, Returned, Recoverable, Sufficient, Wallet, ProgramAddress, Run;
    DelegatedIsReady(c, s, signers, payer, v, d, program, args);
    var t := Next(c, s, Submit(Delegate(payer, d, program, args), signers));
    moves := HandedBack(c, t, v, d, owner, others);
  }

  /** Whether an account can be handed back, when there are an able validator, an owner program that conforms where it
      is called, and others that spare the validator: exactly when it is not locked. If it is, no run at all ends its
      session. */
  lemma ReturnableIff(c: Chain, s: Store, v: Key, d: Key, program: Store -> CpiReply, others: Store -> Store)
    requires Able(c, s, v, d) && Cooperates(c, v, d, program) && Spares(c, v, d, others)
    ensures !Locked(s, d) <==> exists moves: seq<Move> {:trigger Turns(c, s, v, moves, program, others)} ::
              && Turns(c, s, v, moves, program, others)
              && SessionOk(Run(c, s, moves), d) && Abs(Run(c, s, moves), d) == Idle
    ensures Locked(s, d) ==> forall moves: seq<Move> {:trigger Run(c, s, moves)} ::
              SessionOk(Run(c, s, moves), d) && Abs(Run(c, s, moves), d).Live?
  {
    hide Run, SessionOk, Abs, Chain.Valid, Wallet, Funds, Advance, Returned, Outcome, Turns, Cooperates, Spares,
         VaultOk, ConfigOk, Approved, Reopenable;
    if Locked(s, d) {
      forall moves: seq<Move> ensures SessionOk(Run(c, s, moves), d) && Abs(Run(c, s, moves), d).Live? {
        LockedForever(c, s, moves, d);
      }
    } else {
      var moves := HandedBack(c, s, v, d, program, others);
    }
  }

  /** After any run an account is locked exactly when its session allows undelegation and settled on bytes to return,
      and it is on the curve, an escrow account, or derived by an address that is no program's. */
  lemma LockedIff(c: Chain, s: Store, moves: seq<Move>, d: Key)
    requires Genesis(s) && c.Valid()
    ensures SessionOk(Run(c, s, moves), d)
    ensures var t := Run(c, s, moves);
            Locked(t, d) <==>
            && Abs(t, d).Live? && Abs(t, d).flag && Outcome(Abs(t, d)).0 != []
            && (OnCurve(d) || d.Escrow? || (d.Derived? && ProgramAddress(d.program)))
  {
    hide Run, Chain.Valid, SessionOk, Abs, Outcome, Genesis;
    RunFits(c, s, moves, d);
    LiveRecord(Run(c, s, moves), d);
  }
}
