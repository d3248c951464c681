/** Accounts that can never be handed back: when an account is locked for good. */
module Locks {
  import opened Outcomes
  import opened Octets
  import opened Store
  import opened Handlers
  import opened Sessions
  import opened Invariants
  import opened UndelegateEffects
  import opened Runs
  import opened Histories

  /** A session that allows undelegation and settled on bytes to return, of an account that cannot be opened again to
      hold them: an escrow account, a plain address, or one whose owner program cannot be called. */
  ghost predicate Locked(s: Store, d: Key)
    requires SessionOk(s, d)
  {
    var x := Abs(s, d);
    x.Live? && x.flag && Outcome(x).0 != [] && !Reopenable(d, x.owner)
  }

  // ---- Locked for good ----

  /** The events of a step include an undelegation only if it undelegates this very account. */
  lemma UndelegatedIsAbout(c: Chain, s: Store, m: Move, d: Key, e: Event)
    requires Inv(c, s) && c.Valid()
    requires e in EventsOf(s, m, Next(c, s, m), d) && e.Undelegated?
    ensures m.Submit? && m.ix.Undelegate? && m.ix.delegated == d && Legal(s, m) && Succeeds(c, s, m.signers, m.ix)
    ensures Abs(s, d).Live?
  {
    hide Chain.Valid, VaultOk, ConfigOk, SessionOk, Abs, Next, Legal, Succeeds, Total, Frame, Fresh, Touched,
         ReplayFrom, SessionKeys, Delegatable, ProgramAddress;
    var t := Next(c, s, m);
    assert SessionOk(s, d);
    UndelegatedClears(s, m, t, d, e);
    LiveRecord(s, d);
    RecordChanges(c, s, m, d);
  }

  /** Records appear and disappear only by instructions about their account. */
  lemma RecordChanges(c: Chain, s: Store, m: Move, d: Key)
    requires Inv(c, s) && c.Valid() && m.Submit? && Focus(m.ix).Some?
    requires Fresh(s, Record(d)) != Fresh(Next(c, s, m), Record(d))
    ensures Focus(m.ix) == Some(d) && Legal(s, m) && Succeeds(c, s, m.signers, m.ix)
  {
    hide Chain.Valid, VaultOk, ConfigOk, SessionOk, Abs, Next, Legal, Succeeds, Total, Frame, Fresh, Touched,
         ReplayFrom, SessionKeys, Delegatable, ProgramAddress;
    var t := Next(c, s, m);
    Effective(c, s, m);
    InstructionStep(c, s, m);
    if Focus(m.ix) != Some(d) {
      Apart(s, m.ix, d);
      DerivedAddresses(d);
      KeptBy(s, t, Touched(m.ix), Record(d));
      KeptFresh(s, t, Record(d));
      assert false;
    }
  }

  lemma KeptFresh(s: Store, t: Store, k: Key)
    requires Kept(At(s, k), At(t, k))
    ensures Fresh(s, k) <==> Fresh(t, k)
  {}

  lemma UndelegatedClears(s: Store, m: Move, t: Store, d: Key, e: Event)
    requires SessionOk(s, d) && e in EventsOf(s, m, t, d) && e.Undelegated?
    ensures !Fresh(s, Record(d)) && Fresh(t, Record(d)) && m.Submit? && m.ix.Undelegate?
  {
    hide RecordOf, CommitOf, LiveOk, DelegateBuffer;
  }

  /** No step undoes the lock: whoever undelegates needs the account to be opened again, and no commit is accepted any
      more. */
  lemma LockedOne(c: Chain, s: Store, m: Move, d: Key)
    requires Inv(c, s) && c.Valid() && SessionOk(s, d) && Locked(s, d)
    ensures var t := Next(c, s, m);
            SessionOk(t, d) && Locked(t, d) && Outcome(Abs(t, d)).0 == Outcome(Abs(s, d)).0
  {
    hide Inv, Chain.Valid, SessionOk, Abs, Next, Outcome, Step, ReplayFrom, EventsOf, Reopenable;
    var t := Next(c, s, m);
    StepRefines(c, s, m, d);
    var es := EventsOf(s, m, t, d);
    forall e | e in es ensures !e.Undelegated? {
      if e.Undelegated? {
        UndelegatedIsAbout(c, s, m, d, e);
        LockedRefuses(c, s, m, d);
        assert false;
      }
    }
    Settled(Abs(s, d), es);
  }

  lemma LockedRefuses(c: Chain, s: Store, m: Move, d: Key)
    requires SessionOk(s, d) && Locked(s, d)
    requires m.Submit? && m.ix.Undelegate? && m.ix.delegated == d && Legal(s, m)
    ensures !Succeeds(c, s, m.signers, m.ix)
  {
    hide HandleUndelegate, SessionOk, Abs, Reopenable;
    var ix := m.ix;
    if Succeeds(c, s, m.signers, ix) {
      var t := HandleUndelegate(c, s, m.signers, ix.validator, d, ix.ownerProgram, ix.reimbursement, ix.reply).value;
      UndelegateSigned(c, s, m.signers, ix.validator, d, ix.ownerProgram, ix.reimbursement, ix.reply);
      UndelegateGates(c, s, m.signers, ix.validator, d, ix.ownerProgram, ix.reimbursement, ix.reply, t);
      DataRefused(c, s, m.signers, ix.validator, d, ix.ownerProgram, ix.reimbursement, ix.reply);
      assert false;
    }
  }

  /** A locked account is locked for good: after every run its session is still live, with the same bytes to return. */
  lemma {:induction false} LockedForever(c: Chain, s: Store, moves: seq<Move>, d: Key)
    requires Inv(c, s) && c.Valid() && SessionOk(s, d) && Locked(s, d)
    ensures var t := Run(c, s, moves);
            Inv(c, t) && SessionOk(t, d) && Locked(t, d) && Outcome(Abs(t, d)).0 == Outcome(Abs(s, d)).0
  {
    hide Inv, Chain.Valid, SessionOk, Locked, Abs, Next, Outcome;
    RunKeeps(c, s, moves);
    if moves != [] {
      var front := moves[..|moves| - 1];
      LockedForever(c, s, front, d);
      RunKeeps(c, s, front);
      LockedOne(c, Run(c, s, front), moves[|moves| - 1], d);
    }
  }

  // ---- Whom live accounts belong to ----

  /** A live account off the curve is derived by its owner program, from the seeds of its session. */
  ghost predicate Fits(s: Store, d: Key)
    requires SessionOk(s, d)
  {
    Abs(s, d).Live? ==> BelongsTo(d, Abs(s, d).owner, Abs(s, d).seeds)
  }

  lemma FitsOne(c: Chain, s: Store, m: Move, d: Key)
    requires Inv(c, s) && c.Valid() && SessionOk(s, d) && Fits(s, d)
    ensures SessionOk(Next(c, s, m), d) && Fits(Next(c, s, m), d)
  {
    hide Inv, Chain.Valid, SessionOk, Abs, Next, Step, ReplayFrom, EventsOf, BelongsTo, Fresh;
    var t := Next(c, s, m);
    StepRefines(c, s, m, d);
    LiveRecord(s, d);
    LiveRecord(t, d);
    var es := EventsOf(s, m, t, d);
    if Abs(s, d).Live? && Abs(t, d).Live? {
      forall e | e in es ensures !e.Undelegated? {
        if e.Undelegated? {
          UndelegatedClears(s, m, t, d, e);
          assert false;
        }
      }
      AbsSane(s, d);
      Onward(Abs(s, d), es);
    } else if Abs(t, d).Live? {
      OpenedFits(c, s, m, d);
    }
  }

  lemma OpenedFits(c: Chain, s: Store, m: Move, d: Key)
    requires Inv(c, s) && c.Valid() && SessionOk(s, d) && SessionOk(Next(c, s, m), d)
    requires Abs(s, d).Idle? && Abs(Next(c, s, m), d).Live?
    requires ReplayFrom(Abs(s, d), EventsOf(s, m, Next(c, s, m), d)) == Some(Abs(Next(c, s, m), d))
    ensures Fits(Next(c, s, m), d)
  {
    hide Inv, Chain.Valid, SessionOk, Abs, Next, DelegateBuffer, BelongsTo, Fresh, EscrowSeeds, Succeeds, Legal;
    var t := Next(c, s, m);
    LiveRecord(s, d);
    LiveRecord(t, d);
    var es := EventsOf(s, m, t, d);
    assert es != [];
    RecordChanges(c, s, m, d);
    assert es[..|es| - 1] == [];
    DelegatedFits(c, s, m.signers, m.ix);
  }

  lemma DelegatedFits(c: Chain, s: Store, signers: set<Key>, ix: Instruction)
    requires Succeeds(c, s, signers, ix)
    ensures ix.Delegate? ==> BelongsTo(ix.delegated, ix.ownerProgram, ix.delegateArgs.seeds)
    ensures ix.DelegateEscrow? ==>
              BelongsTo(Escrow(ix.of, ix.index), System, EscrowSeeds(ix.of, ix.index))
  {
    hide CreatePda, DelegateBuffer, EscrowSeeds, Derivation, Flat;
  }

  /** In every run: a live account is on the curve, an escrow account of the system program, or derived by the owner
      program it goes back to from the very seeds that program will be given; so it can be opened again unless it is
      on the curve or an escrow account. */
  lemma {:induction false} RunFits(c: Chain, s: Store, moves: seq<Move>, d: Key)
    requires Genesis(s) && c.Valid()
    ensures SessionOk(Run(c, s, moves), d) && Fits(Run(c, s, moves), d)
  {
    hide Chain.Valid, Inv, SessionOk, Abs, Next, BelongsTo, Fits, Genesis;
    RunRefines(c, s, moves, d);
    InvSession(c, Run(c, s, moves), d);
    if moves == [] {
      GenesisFits(s, d);
    } else {
      var front := moves[..|moves| - 1];
      RunFits(c, s, front, d);
      RunRefines(c, s, front, d);
      InvSession(c, Run(c, s, front), d);
      FitsOne(c, Run(c, s, front), moves[|moves| - 1], d);
    }
  }

  lemma GenesisFits(s: Store, d: Key)
    requires Genesis(s) && SessionOk(s, d)
    ensures Fits(s, d)
  {
    LiveRecord(s, d);
  }
}
