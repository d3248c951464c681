/** Whole runs, from a store in which nothing of the program exists: the history of every account. */
module Histories {
  import opened Outcomes
  import opened Octets
  import opened Layouts
  import opened Store
  import opened Handlers
  import opened Sessions
  import opened Invariants
  import opened SessionEffects
  import opened UndelegateEffects
  import opened ConfigEffects
  import opened Runs

  /** The invariant holds after every run, and no run makes or loses a lamport. */
  lemma {:induction false} RunKeeps(c: Chain, s: Store, moves: seq<Move>)
    requires Inv(c, s) && c.Valid()
    ensures Inv(c, Run(c, s, moves)) && Total(Run(c, s, moves)) == Total(s)
  {
    hide Inv, Total, Next, Chain.Valid;
    if moves != [] {
      RunKeeps(c, s, moves[..|moves| - 1]);
      StepKeeps(c, Run(c, s, moves[..|moves| - 1]), moves[|moves| - 1]);
    }
  }

  /** Everything that happened to the session of d in a run. */
  ghost function Events(c: Chain, s: Store, moves: seq<Move>, d: Key): seq<Event>
    requires Inv(c, s) && c.Valid()
  {
    if moves == [] then []
    else
      var front, last := moves[..|moves| - 1], moves[|moves| - 1];
      RunKeeps(c, s, front);
      Events(c, s, front, d) + EventsOf(Run(c, s, front), last, Run(c, s, moves), d)
  }

  /** Replaying the events of a run takes the session it found to the session it left. */
  lemma {:induction false} RunRefinesFrom(c: Chain, s: Store, moves: seq<Move>, d: Key)
    requires Inv(c, s) && c.Valid()
    ensures Inv(c, Run(c, s, moves))
    ensures ReplayFrom(Abs(s, d), Events(c, s, moves, d)) == Some(Abs(Run(c, s, moves), d))
  {
    hide Next, Chain.Valid, EventsOf, VaultOk, ConfigOk, SessionOk, ReplayFrom, Abs;
    assert SessionOk(s, d);
    RunKeeps(c, s, moves);
    if moves == [] {
      ReplayNothing(Abs(s, d));
    } else {
      var front := moves[..|moves| - 1];
      RunRefinesFrom(c, s, front, d);
      StepRefines(c, Run(c, s, front), moves[|moves| - 1], d);
      ReplayOnward(Abs(s, d), Events(c, s, front, d),
          EventsOf(Run(c, s, front), moves[|moves| - 1], Run(c, s, moves), d));
    }
  }

  lemma {:induction false} ReplayOnward(x: Session, es: seq<Event>, more: seq<Event>)
    requires ReplayFrom(x, es).Some?
    ensures ReplayFrom(x, es + more) == ReplayFrom(ReplayFrom(x, es).value, more)
  {
    hide Step;
    if more == [] {
      assert es + more == es;
    } else {
      ReplayOnward(x, es, more[..|more| - 1]);
      assert (es + more)[..|es + more| - 1] == es + more[..|more| - 1];
    }
  }

  /** The account store simulates the session machine: after every run from a store without accounts of the program,
      the session of every account is what replaying its events gives. Errors and skips have no events. */
  lemma RunRefines(c: Chain, s: Store, moves: seq<Move>, d: Key)
    requires Genesis(s) && c.Valid()
    ensures Inv(c, s) && Inv(c, Run(c, s, moves))
    ensures Replay(Events(c, s, moves, d)) == Some(Abs(Run(c, s, moves), d))
  {
    hide Run, Events, Chain.Valid, VaultOk, ConfigOk, SessionOk, ReplayFrom, Abs, Genesis;
    GenesisInv(c, s);
    GenesisIdle(s, d);
    RunRefinesFrom(c, s, moves, d);
    ReplayMore([], Events(c, s, moves, d));
    assert [] + Events(c, s, moves, d) == Events(c, s, moves, d);
  }

  lemma GenesisIdle(s: Store, d: Key)
    requires Genesis(s)
    ensures SessionOk(s, d) && Abs(s, d) == Idle
  {
    hide LiveOk;
    assert Fresh(s, Record(d));
  }

  /** What a successful undelegation hands back, in any run whatever: exactly the bytes of the one commit of the
      session that allowed undelegation. That commit was the last, it was finalized, as was every one before it,
      and their slots never decreased. */
  lemma ReturnedState(c: Chain, s: Store, moves: seq<Move>, d: Key, ix: Instruction, signers: set<Key>)
    returns (opening: Event, commits: seq<Event>)
    requires Genesis(s) && c.Valid()
    requires ix.Undelegate? && ix.delegated == d
    requires var t := Run(c, s, moves); Legal(t, Submit(ix, signers)) && Succeeds(c, t, signers, ix)
    ensures Inv(c, s)
    ensures var es := Events(c, s, moves + [Submit(ix, signers)], d);
            var handedBack := At(Run(c, s, moves + [Submit(ix, signers)]), d).data;
            && opening.Delegated? && commits != [] && Ordered(commits)
            && Current(es) == [opening] + Rounds(commits) + [Undelegated(handedBack)]
            && commits[|commits| - 1].allow
            && commits[|commits| - 1].bytes == handedBack
  {
    hide Chain.Valid, VaultOk, ConfigOk, SessionOk, Replay, HandleUndelegate, ReplayFrom, Succeeds, Abs, Current,
         Ordered, Rounds, Genesis;
    var all, m := moves + [Submit(ix, signers)], Submit(ix, signers);
    assert all[..|all| - 1] == moves;
    RunRefines(c, s, moves, d);
    RunRefines(c, s, all, d);
    var t, u := Run(c, s, moves), Run(c, s, all);
    var e := Undelegated(At(u, d).data);
    UndelegateEvent(c, t, m, d, u);
    assert Events(c, s, all, d) == Events(c, s, moves, d) + [e];
    opening, commits := CompletedSession(Events(c, s, all, d));
  }

  lemma UndelegateEvent(c: Chain, s: Store, m: Move, d: Key, t: Store)
    requires SessionOk(s, d) && m.Submit? && m.ix.Undelegate? && m.ix.delegated == d
    requires Legal(s, m) && Succeeds(c, s, m.signers, m.ix) && t == Next(c, s, m)
    ensures EventsOf(s, m, t, d) == [Undelegated(At(t, d).data)]
  {
    hide HandleUndelegate, Total, Frame, LiveOk, RecordOf, MetadataOf, CommitOf, SessionKeys, ProgramAddress;
    var ix := m.ix;
    UndelegateSigned(c, s, m.signers, ix.validator, d, ix.ownerProgram, ix.reimbursement, ix.reply);
    UndelegateGates(c, s, m.signers, ix.validator, d, ix.ownerProgram, ix.reimbursement, ix.reply, t);
    UndelegateEffect(c, s, m.signers, ix.validator, d, ix.ownerProgram, ix.reimbursement, ix.reply, t);
  }

  /** From any live session on, until it is undelegated: slots, flag, owner, rent payer and seeds. */
  lemma SessionOnward(c: Chain, s: Store, moves: seq<Move>, d: Key)
    requires Inv(c, s) && c.Valid() && Abs(s, d).Live?
    requires forall e :: e in Events(c, s, moves, d) ==> !e.Undelegated?
    ensures Inv(c, Run(c, s, moves))
    ensures var x, y := Abs(s, d), Abs(Run(c, s, moves), d);
            && Continues(x, y)
            && (x.flag ==> forall e :: e in Events(c, s, moves, d) ==> !e.Committed?)
  {
    hide Run, Events, Chain.Valid, VaultOk, ConfigOk, SessionOk, ReplayFrom, Abs;
    assert SessionOk(s, d);
    RunRefinesFrom(c, s, moves, d);
    AbsSane(s, d);
    Onward(Abs(s, d), Events(c, s, moves, d));
  }

  lemma AbsSane(s: Store, d: Key)
    requires SessionOk(s, d)
    ensures Sane(Abs(s, d))
  {
    hide RecordOk, MetadataOk, RecordOf;
  }

  // ---- What settled commits moved ----

  /** A commit state account that appears or disappears belongs to the account the instruction names. */
  lemma CommitAppearsFor(c: Chain, s: Store, m: Move, d: Key)
    requires Inv(c, s) && c.Valid() && m.Submit? && Focus(m.ix).Some?
    requires Fresh(s, CommitState(d)) != Fresh(Next(c, s, m), CommitState(d))
    ensures Focus(m.ix) == Some(d) && Legal(s, m) && Succeeds(c, s, m.signers, m.ix)
  {
    hide Chain.Valid, VaultOk, ConfigOk, SessionOk, Abs, Next, Legal, Succeeds, Total, Frame, Touched, ReplayFrom,
         EventsOf, SessionKeys, Delegatable, ProgramAddress;
    var t := Next(c, s, m);
    assert SessionOk(s, d);
    Effective(c, s, m);
    InstructionStep(c, s, m);
    if Focus(m.ix) != Some(d) {
      Apart(s, m.ix, d);
      DerivedAddresses(d);
      KeptBy(s, t, Touched(m.ix), CommitState(d));
      assert false;
    }
  }

  /** What a step settles, read off the accounts: what it credits to the vault of the finalizing validator, and what of
      the lamports in the two commit accounts that validator does not get back. */
  ghost function SettledBy(s: Store, m: Move, t: Store, d: Key): (moved: (int, int)) {
    if m.Submit? && m.ix.Finalize? && !Fresh(s, CommitState(d)) && Fresh(t, CommitState(d))
       && DecodeRecord(At(t, Record(d)).data).Ok?
    then
      var v := m.ix.validator;
      var refund := if v == d then Lamports(t, d) - RecordOf(t, d).lamports else Lamports(t, v) - Lamports(s, v);
      (Lamports(t, ValidatorVault(v)) - Lamports(s, ValidatorVault(v)),
       Lamports(s, CommitState(d)) + Lamports(s, CommitRecord(d)) - refund)
    else (0, 0)
  }

  /** The same since the session began. */
  ghost function SettledIn(c: Chain, s: Store, moves: seq<Move>, d: Key): (moved: (int, int)) {
    if moves == [] then (0, 0)
    else
      var front := moves[..|moves| - 1];
      var before, t := Run(c, s, front), Run(c, s, moves);
      if Fresh(before, Record(d)) then (0, 0)
      else
        var earlier, now := SettledIn(c, s, front, d), SettledBy(before, moves[|moves| - 1], t, d);
        (earlier.0 + now.0, earlier.1 + now.1)
  }

  /** A finalized commit moves exactly the difference between recorded and committed lamports, one way or the other. */
  lemma FinalizeSettles(c: Chain, s: Store, m: Move, d: Key)
    requires Inv(c, s) && c.Valid() && m.Submit? && m.ix.Finalize?
    requires !Fresh(s, CommitState(d)) && Fresh(Next(c, s, m), CommitState(d))
    ensures SessionOk(s, d) && Abs(s, d).Live? && Abs(s, d).pending.Some?
    ensures var x := Abs(s, d);
            SettledBy(s, m, Next(c, s, m), d)
            == (Above(x.recorded, x.pending.value.lamports), Above(x.pending.value.lamports, x.recorded))
  {
    hide Chain.Valid, VaultOk, ConfigOk, SessionOk, Abs, Legal, Total, Frame, ApplyCommit, HandleFinalize,
         SessionKeys, ProgramAddress, Applies, Inv, DecodeRecord, EncodeRecord, DecodeMetadata, EncodeMetadata,
         DecodeCommitRecord;
    var t := Next(c, s, m);
    var v := m.ix.validator;
    assert SessionOk(s, d) by { InvSession(c, s, d); }
    CommitAppearsFor(c, s, m, d);
    FinalizeSigned(c, s, m.signers, v, d);
    SignerPlain(s, m, v);
    var r, p := FinalizeTerms(c, s, m.signers, v, d, t);
    FinalizeEffect(c, s, m.signers, v, d, t);
  }

  lemma SignerPlain(s: Store, m: Move, k: Key)
    requires m.Submit? && Legal(s, m) && k in m.signers
    ensures !ProgramAddress(k)
  {}

  lemma InvSession(c: Chain, s: Store, d: Key)
    requires Inv(c, s)
    ensures SessionOk(s, d)
  {}

  lemma FinalizeTerms(c: Chain, s: Store, signers: set<Key>, v: Key, d: Key, t: Store)
    returns (r: DelegationRecord, p: CommitRecordData)
    requires HandleFinalize(c, s, signers, v, d) == Ok(t)
    requires SessionOk(s, d) && !ProgramAddress(v) && !Fresh(s, CommitState(d))
    ensures Abs(s, d).Live? && Abs(s, d).pending.Some?
    ensures Abs(s, d).recorded == r.lamports && Abs(s, d).pending.value.lamports == p.lamports
    ensures DecodeRecord(At(t, Record(d)).data).Ok?
    ensures Lamports(t, ValidatorVault(v)) - Lamports(s, ValidatorVault(v)) == Above(r.lamports, p.lamports)
    ensures v != d ==> Lamports(t, v) - Lamports(s, v) == Refund(s, d, r.lamports, p.lamports)
    ensures v == d ==> Lamports(t, d) - RecordOf(t, d).lamports == Refund(s, d, r.lamports, p.lamports)
  {
    hide HandleFinalize, SessionOk, Abs, Applies, Refund, ProgramAddress, DecodeRecord, EncodeRecord, DecodeMetadata,
         EncodeMetadata, DecodeCommitRecord;
    var m;
    r, m, p := FinalizeApplies(c, s, signers, v, d, t);
    LiveRecord(s, d);
    AppliesTo(s, v, d, r, m, p, t);
    PendingIs(s, d, r, p);
    ApplyCommitBalances(s, v, d, r, m, p, t);
    var settled := ApplyCommitSession(s, v, d, r, m, p, t);
    RecordRoundTrip(r.(lamports := settled));
  }

  lemma AppliesTo(s: Store, v: Key, d: Key, r: DelegationRecord, m: DelegationMetadata, p: CommitRecordData, t: Store)
    requires Applies(s, v, d, r, m, p, t)
    ensures DecodeRecord(At(s, Record(d)).data) == Ok(r) && DecodeCommitRecord(At(s, CommitRecord(d)).data) == Ok(p)
  {
    hide ApplyCommit;
  }

  /** A finalize adds what it settles to the ledger. */
  lemma FinalizeAddsUp(c: Chain, s: Store, m: Move, d: Key, es: seq<Event>)
    requires Inv(c, s) && c.Valid() && SessionOk(s, d) && Replay(es) == Some(Abs(s, d)) && Abs(s, d).Live?
    requires m.Submit? && m.ix.Finalize? && !Fresh(Next(c, s, m), Record(d))
    requires !Fresh(s, CommitState(d)) && Fresh(Next(c, s, m), CommitState(d))
    ensures var t := Next(c, s, m);
            var l, after, moved := LedgerOf(es), LedgerOf(es + EventsOf(s, m, t, d)), SettledBy(s, m, t, d);
            after.released == l.released + moved.0 && after.funded == l.funded + moved.1
  {
    hide Inv, Chain.Valid, Next, SessionOk, Abs, LedgerOf, Replay, EventsOf, SettledBy, Fresh;
    var t := Next(c, s, m);
    LiveRecord(s, d);
    FinalizeSettles(c, s, m, d);
    var extra := FinalizedEvents(s, m, t, d);
    LedgerMore(es, Finalized);
    LedgerArrived(es + [Finalized], extra);
    assert es + EventsOf(s, m, t, d) == es + [Finalized] + Arrived(extra);
  }

  lemma FinalizedEvents(s: Store, m: Move, t: Store, d: Key) returns (extra: int)
    requires SessionOk(s, d) && m.Submit? && m.ix.Finalize?
    requires !Fresh(s, Record(d)) && !Fresh(t, Record(d)) && !Fresh(s, CommitState(d)) && Fresh(t, CommitState(d))
    ensures EventsOf(s, m, t, d) == [Finalized] + Arrived(extra)
  {
    hide SessionOk, RecordOf, CommitOf, DelegateBuffer;
    FinalizedDecodes(s, d);
    extra := Lamports(t, d) - (Lamports(s, d) - RecordOf(s, d).lamports + CommitOf(s, d).lamports);
  }

  /** What a step adds to the ledger of a session that goes on is what it settles. */
  lemma StepSettles(c: Chain, s: Store, m: Move, d: Key, es: seq<Event>)
    requires Inv(c, s) && c.Valid() && SessionOk(s, d) && Replay(es) == Some(Abs(s, d)) && Abs(s, d).Live?
    requires !Fresh(Next(c, s, m), Record(d))
    ensures var t := Next(c, s, m);
            var l, after, moved := LedgerOf(es), LedgerOf(es + EventsOf(s, m, t, d)), SettledBy(s, m, t, d);
            after.released == l.released + moved.0 && after.funded == l.funded + moved.1
  {
    hide Inv, Chain.Valid, Next, SessionOk, Abs, LedgerOf, Replay, RecordOf, CommitOf, DelegateBuffer;
    var t := Next(c, s, m);
    LiveRecord(s, d);
    var e := EventsOf(s, m, t, d);
    if Fresh(s, CommitState(d)) && !Fresh(t, CommitState(d)) {
      LedgerOne(es, e);
    } else if !Fresh(s, CommitState(d)) && Fresh(t, CommitState(d)) {
      if m.Submit? && m.ix.Finalize? {
        FinalizeAddsUp(c, s, m, d, es);
      } else {
        assert es + [] == es;
      }
    } else {
      LedgerArrived(es, Lamports(t, d) - Lamports(s, d));
    }
  }

  lemma FinalizedDecodes(s: Store, d: Key)
    requires SessionOk(s, d) && !Fresh(s, CommitState(d)) && !Fresh(s, Record(d))
    ensures DecodeRecord(At(s, Record(d)).data).Ok? && DecodeCommitRecord(At(s, CommitRecord(d)).data).Ok?
  {
    hide DecodeRecord, DecodeCommitRecord, DecodeMetadata;
  }

  lemma LedgerArrived(es: seq<Event>, amount: int)
    ensures var l, m := LedgerOf(es), LedgerOf(es + Arrived(amount));
            m.released == l.released && m.funded == l.funded
  {
    hide LedgerOf;
    if amount > 0 {
      LedgerMore(es, Deposited(amount));
    } else {
      assert es + [] == es;
    }
  }

  lemma LedgerOne(es: seq<Event>, e: seq<Event>)
    requires e == [] || (|e| == 1 && e[0].Committed?)
    ensures LedgerOf(es + e).released == LedgerOf(es).released && LedgerOf(es + e).funded == LedgerOf(es).funded
  {
    hide LedgerOf;
    if e == [] {
      assert es + [] == es;
    } else {
      LedgerMore(es, e[0]);
      assert e == [e[0]];
    }
  }

  /** The step that opens a session starts its ledger. */
  lemma StepOpens(c: Chain, s: Store, m: Move, d: Key, es: seq<Event>)
    requires Inv(c, s) && c.Valid() && Fresh(s, Record(d)) && !Fresh(Next(c, s, m), Record(d))
    ensures SessionOk(s, d)
    ensures var after := LedgerOf(es + EventsOf(s, m, Next(c, s, m), d));
            after.released == 0 && after.funded == 0
  {
    hide Inv, Chain.Valid, Next, SessionOk, Abs, LedgerOf, ReplayFrom, DelegateBuffer, RecordOf, CommitOf;
    var t := Next(c, s, m);
    InvSession(c, s, d);
    StepRefines(c, s, m, d);
    LiveRecord(s, d);
    LiveRecord(t, d);
    var e := EventsOf(s, m, t, d);
    if e == [] {
      ReplayNothing(Abs(s, d));
      assert false;
    }
    LedgerMore(es, e[0]);
    assert e == [e[0]];
  }

  /** Whatever happens in between, the ledger of a live session tells what its finalized commits moved: what it counts
      as released is what reached the validators' vaults, and what it counts as funded is what the validators did not
      get back of the collateral and rent in the commit accounts. */
  lemma {:induction false} RunSettles(c: Chain, s: Store, moves: seq<Move>, d: Key)
    requires Genesis(s) && c.Valid()
    ensures Inv(c, s)
    ensures var l, moved := LedgerOf(Events(c, s, moves, d)), SettledIn(c, s, moves, d);
            !Fresh(Run(c, s, moves), Record(d)) ==> l.released == moved.0 && l.funded == moved.1
  {
    hide Chain.Valid, Genesis, Inv, Next, SessionOk, Abs, LedgerOf, Replay, EventsOf, SettledBy;
    RunRefines(c, s, moves, d);
    if moves == [] {
      assert Fresh(s, Record(d)) by { GenesisRecord(s, d); }
    } else if !Fresh(Run(c, s, moves), Record(d)) {
      var front, last := moves[..|moves| - 1], moves[|moves| - 1];
      RunSettles(c, s, front, d);
      RunRefines(c, s, front, d);
      var before := Run(c, s, front);
      if Fresh(before, Record(d)) {
        StepOpens(c, before, last, d, Events(c, s, front, d));
      } else {
        InvSession(c, before, d);
        LiveRecord(before, d);
        StepSettles(c, before, last, d, Events(c, s, front, d));
      }
    }
  }

  lemma GenesisRecord(s: Store, d: Key)
    requires Genesis(s)
    ensures Fresh(s, Record(d))
  {}

  /** What a live account holds, after any number of rounds: what it had at delegation, plus all deposits, plus what
      validators funded, less what went to validators' vaults. */
  lemma RunLedger(c: Chain, s: Store, moves: seq<Move>, d: Key)
    requires Genesis(s) && c.Valid()
    ensures Inv(c, s) && Inv(c, Run(c, s, moves))
    ensures var t, l, moved := Run(c, s, moves), LedgerOf(Events(c, s, moves, d)), SettledIn(c, s, moves, d);
            Abs(t, d).Live? ==> Lamports(t, d) + moved.0 == l.initial + l.deposits + moved.1
  {
    hide Run, Events, Chain.Valid, VaultOk, ConfigOk, SessionOk, Replay, Abs, Genesis, LedgerOf, SettledIn;
    RunRefines(c, s, moves, d);
    RunSettles(c, s, moves, d);
    var t := Run(c, s, moves);
    assert SessionOk(t, d);
    LiveRecord(t, d);
    if Abs(t, d).Live? {
      SessionLedger(Events(c, s, moves, d));
      AbsBalance(t, d);
    }
  }

  lemma AbsBalance(s: Store, d: Key)
    requires SessionOk(s, d) && Abs(s, d).Live?
    ensures Lamports(s, d) == Abs(s, d).recorded + Abs(s, d).surplus
  {
    hide RecordOk, MetadataOk, PendingOk, MetadataOf, CommitOf;
  }

  /** After every finalized commit the account holds the committed lamports and the deposits since the last one, or
      since delegation. An account that is its own validator also holds the refund of that validator. */
  lemma RunFinalized(c: Chain, s: Store, moves: seq<Move>, v: Key, d: Key, signers: set<Key>)
    requires Genesis(s) && c.Valid()
    requires Inv(c, Run(c, s, moves)) && Abs(Run(c, s, moves), d).Live? && Abs(Run(c, s, moves), d).pending.Some?
    requires Legal(Run(c, s, moves), Submit(Finalize(v, d), signers))
    requires Succeeds(c, Run(c, s, moves), signers, Finalize(v, d))
    ensures Inv(c, s)
    ensures var t := Run(c, s, moves);
            var u := Next(c, t, Submit(Finalize(v, d), signers));
            var x, committed := Abs(t, d), Abs(t, d).pending.value.lamports;
            && SessionOk(u, d) && Abs(u, d).Live?
            && Abs(u, d).recorded == committed + RecentDeposits(Events(c, s, moves, d))
            && Lamports(u, d) == Abs(u, d).recorded + (if v == d then Refund(t, d, x.recorded, committed) else 0)
            && Refund(t, d, x.recorded, committed) >= 0
  {
    hide Run, Events, Chain.Valid, VaultOk, ConfigOk, SessionOk, Replay, Abs, Genesis, HandleFinalize, RecentDeposits,
         Total, Frame, SessionKeys, Applies, Refund;
    RunRefines(c, s, moves, d);
    var t := Run(c, s, moves);
    SessionLedger(Events(c, s, moves, d));
    LiveRecord(t, d);
    FinalizeSigned(c, t, signers, v, d);
    var u := Next(c, t, Submit(Finalize(v, d), signers));
    FinalizeEffect(c, t, signers, v, d, u);
    var r, m, p := FinalizeApplies(c, t, signers, v, d, u);
    var settled := ApplyCommitSession(t, v, d, r, m, p, u);
    PendingIs(t, d, r, p);
  }

  lemma PendingIs(s: Store, d: Key, r: DelegationRecord, p: CommitRecordData)
    requires SessionOk(s, d) && Abs(s, d).Live? && Abs(s, d).pending.Some?
    requires DecodeRecord(At(s, Record(d)).data) == Ok(r) && DecodeCommitRecord(At(s, CommitRecord(d)).data) == Ok(p)
    ensures Abs(s, d).recorded == r.lamports && Abs(s, d).surplus == Lamports(s, d) - r.lamports
    ensures Abs(s, d).pending.value.lamports == p.lamports
  {
    hide DecodeRecord, DecodeCommitRecord, DecodeMetadata, EncodeRecord, EncodeMetadata;
  }

  // ---- Where commits come from ----

  /** Step k of a run is a commit to d, signed by the validator named in e, with e's arguments, which the program
      config, if there was one, approved at that moment. */
  ghost predicate CommittedBy(c: Chain, s: Store, moves: seq<Move>, k: nat, d: Key, e: Event)
    requires k < |moves| && e.Committed? && Inv(c, s) && c.Valid()
  {
    RunKeeps(c, s, moves[..k]);
    var t, m := Run(c, s, moves[..k]), moves[k];
    && m.Submit? && e.identity in m.signers && Legal(t, m)
    && (exists args {:trigger Commits(m.ix, t, e.identity, d, args)} ::
          && Commits(m.ix, t, e.identity, d, args)
          && e == Committed(e.identity, args.slot, args.lamports, args.allowUndelegation, args.state))
    && Abs(t, d).Live?
    && (var approved := Approved(t, Abs(t, d).owner); approved.None? || e.identity in approved.value)
  }

  lemma {:induction false} CommitsAreAuthorized(c: Chain, s: Store, moves: seq<Move>, d: Key, e: Event) returns (k: nat)
    requires Inv(c, s) && c.Valid()
    requires e in Events(c, s, moves, d) && e.Committed?
    ensures k < |moves| && CommittedBy(c, s, moves, k, d, e)
  {
    hide Chain.Valid, VaultOk, ConfigOk, SessionOk, Abs, Next, EventsOf, Commits, Approved, Legal;
    var front, last := moves[..|moves| - 1], moves[|moves| - 1];
    RunKeeps(c, s, front);
    if e in Events(c, s, front, d) {
      k := CommitsAreAuthorized(c, s, front, d, e);
      assert moves[..k] == front[..k];
    } else {
      k := |moves| - 1;
      assert e in EventsOf(Run(c, s, front), last, Run(c, s, moves), d);
      CommitEventAuthorized(c, Run(c, s, front), last, d, e);
    }
  }

  lemma CommitEventAuthorized(c: Chain, s: Store, m: Move, d: Key, e: Event)
    requires Inv(c, s) && c.Valid()
    requires e in EventsOf(s, m, Next(c, s, m), d) && e.Committed?
    ensures m.Submit? && e.identity in m.signers && Legal(s, m)
    ensures exists args {:trigger Commits(m.ix, s, e.identity, d, args)} ::
              && Commits(m.ix, s, e.identity, d, args)
              && e == Committed(e.identity, args.slot, args.lamports, args.allowUndelegation, args.state)
    ensures Abs(s, d).Live?
    ensures var approved := Approved(s, Abs(s, d).owner); approved.None? || e.identity in approved.value
  {
    hide Chain.Valid, VaultOk, ConfigOk, SessionOk, Abs, Next, Legal, Succeeds, Total, Frame, Approved, Admitted,
         Commits, Fresh, Touched, Stale;
    var t := Next(c, s, m);
    var args := CommitArguments(s, m, t, d, e);
    CommitAppearsFor(c, s, m, d);
    CommitTakesEffect(c, s, m, d, e.identity, args);
    assert ConfigOk(c, s, Abs(s, d).owner);
    GateAdmits(c, s, Abs(s, d).owner, e.identity);
  }

  lemma CommitArguments(s: Store, m: Move, t: Store, d: Key, e: Event) returns (args: CommitArgs)
    requires SessionOk(s, d) && e in EventsOf(s, m, t, d) && e.Committed?
    ensures Fresh(s, CommitState(d)) && !Fresh(t, CommitState(d))
    ensures m.Submit? && (m.ix.Commit? || m.ix.CommitFromBuffer?)
    ensures Commits(m.ix, s, e.identity, m.ix.delegated, args)
    ensures e == Committed(e.identity, args.slot, args.lamports, args.allowUndelegation, args.state)
  {
    hide RecordOf, CommitOf, LiveOk, DelegateBuffer;
    args := if m.ix.Commit? then m.ix.commitArgs else m.ix.commitArgs.(state := At(s, m.ix.stateBuffer).data);
  }

  lemma CommitTakesEffect(c: Chain, s: Store, m: Move, d: Key, v: Key, args: CommitArgs)
    requires SessionOk(s, d) && m.Submit? && Commits(m.ix, s, v, d, args)
    requires Legal(s, m) && Succeeds(c, s, m.signers, m.ix)
    requires Fresh(s, CommitState(d)) && !Fresh(Next(c, s, m), CommitState(d))
    ensures v in m.signers && Abs(s, d).Live? && Admitted(s, Abs(s, d).owner, v).Pass?
  {
    hide SessionOk, Abs, HandleCommit, Total, Frame, Admitted, Stale, ProgramAddress, SessionKeys;
    var t := Next(c, s, m);
    assert HandleCommit(c, s, m.signers, v, d, args) == Ok(t);
    CommitSigned(c, s, m.signers, v, d, args);
    if Stale(s, d, args.slot) {
      StaleCommitSkips(c, s, m.signers, v, d, args, t);
      assert false;
    }
    CommitEffect(c, s, m.signers, v, d, args, t);
  }
}
