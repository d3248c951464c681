/** What whole runs add up to: the approved validators, the claimed fees, and the lamports of an escrow account. */
module Ledgers {
  import opened Outcomes
  import opened Octets
  import opened Layouts
  import opened Store
  import opened Handlers
  import opened Sessions
  import opened Invariants
  import opened SessionEffects
  import opened UndelegateEffects
  import opened VaultEffects
  import opened ConfigEffects
  import opened EscrowEffects
  import opened Runs
  import opened Histories
  import opened Guarantees
  import opened Contracts

  // ---- The whitelist of a program ----

  datatype Edit = Edit(validator: Key, insert: bool)

  ghost predicate Took(c: Chain, s: Store, m: Move) {
    m.Submit? && Legal(s, m) && Succeeds(c, s, m.signers, m.ix)
  }

  /** The successful changes of a program's config, in order. */
  ghost function Edits(c: Chain, s: Store, moves: seq<Move>, program: Key): seq<Edit> {
    if moves == [] then []
    else
      var front, last := moves[..|moves| - 1], moves[|moves| - 1];
      Edits(c, s, front, program) +
      (if Took(c, Run(c, s, front), last) && last.ix.Whitelist? && last.ix.program == program
       then [Edit(last.ix.validator, last.ix.insert)] else [])
  }

  /** The set that a series of insertions and removals leaves; there is none before the first. */
  function Fold(edits: seq<Edit>): Option<set<Key>> {
    if edits == [] then None
    else
      var last := edits[|edits| - 1];
      Some(Updated(Fold(edits[..|edits| - 1]), last.validator, last.insert))
  }

  lemma ConfigStep(c: Chain, s: Store, m: Move, program: Key)
    requires Inv(c, s) && c.Valid()
    ensures Approved(Next(c, s, m), program) ==
            if m.Submit? && Took(c, s, m) && m.ix.Whitelist? && m.ix.program == program
            then Some(Updated(Approved(s, program), m.ix.validator, m.ix.insert)) else Approved(s, program)
  {
    hide Total, Frame, SessionOk, VaultOk, ConfigOk, Next, Legal, Succeeds, Chain.Valid, Abs, ReplayFrom, EventsOf,
         Approved;
    var t := Next(c, s, m);
    if m.Submit? && Took(c, s, m) && m.ix.Whitelist? && m.ix.program == program {
      assert ConfigOk(c, s, program);
      WhitelistStep(c, s, m);
    } else if t != s {
      Effective(c, s, m);
      if m.Submit? {
        InstructionStep(c, s, m);
        NotTouched(m.ix, program);
        ApprovedFramed(s, t, program, Touched(m.ix));
      } else {
        ApprovedFramed(s, t, program, {});
      }
    }
  }

  lemma NotTouched(ix: Instruction, program: Key)
    requires !(ix.Whitelist? && ix.program == program)
    requires Focus(ix).Some? ==> Delegatable(Focus(ix).value)
    ensures Config(program) !in Touched(ix)
  {}

  lemma {:induction false} ConfigFold(c: Chain, s: Store, moves: seq<Move>, program: Key)
    requires Genesis(s) && c.Valid()
    ensures Approved(Run(c, s, moves), program) == Fold(Edits(c, s, moves, program))
  {
    hide Next, Chain.Valid, Genesis, Inv, Legal, Succeeds, Updated, Approved;
    GenesisInv(c, s);
    if moves == [] {
      GenesisConfig(s, program);
    } else {
      var front, last := moves[..|moves| - 1], moves[|moves| - 1];
      ConfigFold(c, s, front, program);
      RunKeeps(c, s, front);
      ConfigStep(c, Run(c, s, front), last, program);
      var edits := Edits(c, s, front, program);
      if Took(c, Run(c, s, front), last) && last.ix.Whitelist? && last.ix.program == program {
        assert (edits + [Edit(last.ix.validator, last.ix.insert)])[..|edits|] == edits;
      } else {
        assert edits + [] == edits;
      }
    }
  }

  /** After every run the config holds exactly the fold of the changes made, in bytes that are exactly the encoding of
      that set, of the length the size formula gives, with the rent for that length paid. */
  lemma ConfigHistory(c: Chain, s: Store, moves: seq<Move>, program: Key)
    requires Genesis(s) && c.Valid()
    ensures var t, approved := Run(c, s, moves), Fold(Edits(c, s, moves, program));
            && Approved(t, program) == approved
            && (approved.Some? ==>
                  && At(t, Config(program)).data == EncodeConfig(c.listing(approved.value))
                  && |At(t, Config(program)).data| == ConfigSize(approved.value)
                  && c.rent(ConfigSize(approved.value)) <= Lamports(t, Config(program)))
  {
    hide Run, Edits, Fold, Chain.Valid, Genesis, Approved, ConfigOk, EncodeConfig, ConfigSize;
    GenesisInv(c, s);
    RunKeeps(c, s, moves);
    ConfigFold(c, s, moves, program);
    assert ConfigOk(c, Run(c, s, moves), program);
    ConfigBytes(c, Run(c, s, moves), program);
  }

  lemma ConfigBytes(c: Chain, s: Store, program: Key)
    requires ConfigOk(c, s, program)
    ensures Approved(s, program).Some? ==>
              var approved := Approved(s, program).value;
              && At(s, Config(program)).data == EncodeConfig(c.listing(approved))
              && |At(s, Config(program)).data| == ConfigSize(approved)
              && c.rent(ConfigSize(approved)) <= Lamports(s, Config(program))
  {
    hide DecodeConfig, EncodeConfig, ConfigSize;
  }

  lemma GenesisConfig(s: Store, program: Key)
    requires Genesis(s)
    ensures Approved(s, program) == None
  {
    hide DecodeConfig;
    assert Fresh(s, Config(program));
  }

  /** The last thing a series of changes said about a validator. */
  function LastWord(edits: seq<Edit>, validator: Key): Option<bool> {
    if edits == [] then None
    else if edits[|edits| - 1].validator == validator then Some(edits[|edits| - 1].insert)
    else LastWord(edits[..|edits| - 1], validator)
  }

  lemma {:induction false} FoldKeepsLastWord(edits: seq<Edit>, validator: Key)
    requires edits != []
    ensures Fold(edits).Some?
    ensures validator in Fold(edits).value <==> LastWord(edits, validator) == Some(true)
  {
    if |edits| > 1 {
      FoldKeepsLastWord(edits[..|edits| - 1], validator);
    } else {
      assert edits[..0] == [];
    }
  }

  /** Commit's gate, by history: everyone is admitted until the config is first changed, and from then on exactly those
      validators of whom the last change was an insertion. */
  lemma GateByHistory(c: Chain, s: Store, moves: seq<Move>, program: Key, validator: Key)
    requires Genesis(s) && c.Valid()
    ensures var edits := Edits(c, s, moves, program);
            Admitted(Run(c, s, moves), program, validator).Pass? <==>
            edits == [] || LastWord(edits, validator) == Some(true)
  {
    hide Run, Edits, Chain.Valid, Genesis, SessionOk, VaultOk, ConfigOk, LastWord, Approved, Admitted, EncodeConfig;
    GenesisInv(c, s);
    RunKeeps(c, s, moves);
    ConfigHistory(c, s, moves, program);
    var t := Run(c, s, moves);
    assert ConfigOk(c, t, program);
    GateAdmits(c, t, program, validator);
    var edits := Edits(c, s, moves, program);
    if edits != [] {
      FoldKeepsLastWord(edits, validator);
    }
  }

  // ---- Claimed fees ----

  /** Successful claims of one validator: how many, what left its vault, what reached the protocol's vault and what
      reached the validator. */
  datatype Tally = Tally(count: nat, claimed: int, protocol: int, kept: int)

  ghost function Claims(c: Chain, s: Store, moves: seq<Move>, v: Key): Tally {
    if moves == [] then Tally(0, 0, 0, 0)
    else
      var front, last := moves[..|moves| - 1], moves[|moves| - 1];
      var before, a, b := Claims(c, s, front, v), Run(c, s, front), Run(c, s, moves);
      if Took(c, a, last) && last.ix.ClaimValidatorFees? && last.ix.validator == v
      then Tally(before.count + 1,
                 before.claimed + (Lamports(a, ValidatorVault(v)) - Lamports(b, ValidatorVault(v))),
                 before.protocol + (Lamports(b, FeesVault) - Lamports(a, FeesVault)),
                 before.kept + (Lamports(b, v) - Lamports(a, v)))
      else before
  }

  /** Over all claims of a run, whatever happens in between: nothing claimed is lost, the protocol gets no more than a
      tenth, and falls short of a tenth by less than one lamport per claim. */
  lemma {:induction false} ClaimsAddUp(c: Chain, s: Store, moves: seq<Move>, v: Key)
    requires Inv(c, s) && c.Valid() && Total(s) < U64_LIMIT / 10
    ensures var t := Claims(c, s, moves, v);
            && t.claimed == t.protocol + t.kept
            && 10 * t.protocol <= t.claimed <= 10 * t.protocol + 9 * t.count
  {
    hide Total, Frame, HandleClaimValidatorFees, Inv, Chain.Valid;
    if moves != [] {
      var front, last := moves[..|moves| - 1], moves[|moves| - 1];
      ClaimsAddUp(c, s, front, v);
      var a := Run(c, s, front);
      if Took(c, a, last) && last.ix.ClaimValidatorFees? && last.ix.validator == v {
        RunKeeps(c, s, front);
        ClaimTenth(c, a, last.signers, v, last.ix.claim, Run(c, s, moves));
      }
    }
  }

  lemma ClaimTenth(c: Chain, s: Store, signers: set<Key>, v: Key, claim: Option<u64>, t: Store)
    requires HandleClaimValidatorFees(c, s, signers, v, claim) == Ok(t)
    requires Inv(c, s) && Total(s) < U64_LIMIT / 10 && forall k :: k in signers ==> !ProgramAddress(k)
    ensures var claimed := Lamports(s, ValidatorVault(v)) - Lamports(t, ValidatorVault(v));
            && Lamports(t, FeesVault) - Lamports(s, FeesVault) == claimed / 10
            && Lamports(t, v) - Lamports(s, v) == claimed - claimed / 10
  {
    hide Total, Frame, HandleClaimValidatorFees, SessionOk, ConfigOk, VaultOk, ProgramAddress;
    assert VaultOk(c, s, ValidatorVault(v));
    ClaimFromVault(c, s, signers, v, claim);
    ClaimMoves(c, s, signers, v, claim, t);
    TotalCovers(s, ValidatorVault(v));
  }

  /** After every run each initialized vault holds at least its rent, so claims cannot underflow. */
  lemma VaultFloor(c: Chain, s: Store, moves: seq<Move>, v: Key)
    requires Genesis(s) && c.Valid()
    ensures var t := Run(c, s, moves);
            && (Owned(t, FeesVault) ==> c.rent(8) <= Lamports(t, FeesVault))
            && (Owned(t, ValidatorVault(v)) ==> c.rent(8) <= Lamports(t, ValidatorVault(v)))
  {
    hide Run, Chain.Valid, Genesis, SessionOk, ConfigOk;
    GenesisInv(c, s);
    RunKeeps(c, s, moves);
    assert VaultOk(c, Run(c, s, moves), ValidatorVault(v));
  }

  // ---- The lamports of an escrow account ----

  /** What a step does to the balance of an escrow account: a top-up pays in its amount and the missing rent, a
      finalized commit settles, closing refunds. Delegating, committing and undelegating are free, and a step that is
      not about the escrow can only bring lamports. */
  datatype Change = Change(paid: nat, settled: int, arrived: int, refunded: nat)

  function Net(change: Change): int {
    change.paid + change.settled + change.arrived - change.refunded
  }

  ghost function ChangeOf(c: Chain, s: Store, m: Move, of: Key, index: byte): Change
    requires SessionOk(s, Escrow(of, index))
  {
    var escrow := Escrow(of, index);
    if m.Submit? && Took(c, s, m) && m.ix.TopUpEscrow? && m.ix.of == of && m.ix.index == index then
      var missing := if At(s, escrow).owner == System then Shortfall(Lamports(s, escrow), c.rent(0)) else 0;
      Change(missing + m.ix.amount, 0, 0, 0)
    else if m.Submit? && Took(c, s, m) && m.ix.CloseEscrow? && m.ix.payer == of && m.ix.index == index then
      Change(0, 0, 0, Lamports(s, escrow))
    else if m.Submit? && Took(c, s, m) && Focus(m.ix) == Some(escrow) then
      var x := Abs(s, escrow);
      Change(0, if m.ix.Finalize? && x.Live? && x.pending.Some? then x.pending.value.lamports - x.recorded else 0, 0, 0)
    else
      Change(0, 0, Lamports(Next(c, s, m), escrow) - Lamports(s, escrow), 0)
  }

  /** One step changes an escrow by exactly that, and nothing but its own settlement and its closing takes from it. */
  lemma EscrowChanges(c: Chain, s: Store, m: Move, of: Key, index: byte)
    requires Inv(c, s) && c.Valid() && SessionOk(s, Escrow(of, index))
    ensures var escrow, change := Escrow(of, index), ChangeOf(c, s, m, of, index);
            Lamports(Next(c, s, m), escrow) == Lamports(s, escrow) + Net(change) && change.arrived >= 0
  {
    hide Total, Frame, SessionOk, Took, Next, Chain.Valid, Abs, ProgramAddress, Inv, Touched, ChangeOf, Lamports;
    var escrow := Escrow(of, index);
    if m.Submit? && Took(c, s, m) && m.ix.TopUpEscrow? && m.ix.of == of && m.ix.index == index {
      TopUpChange(c, s, m, of, index);
      EscrowToppedUp(c, s, m);
    } else if m.Submit? && Took(c, s, m) && m.ix.CloseEscrow? && m.ix.payer == of && m.ix.index == index {
      CloseChange(c, s, m, of, index);
      EscrowClosed(c, s, m);
    } else if m.Submit? && Took(c, s, m) && Focus(m.ix) == Some(escrow) {
      SessionChange(c, s, m, of, index);
      EscrowSession(c, s, m, escrow);
    } else {
      BystanderChange(c, s, m, of, index);
      EscrowBystander(c, s, m, of, index);
    }
  }

  lemma TopUpChange(c: Chain, s: Store, m: Move, of: Key, index: byte)
    requires SessionOk(s, Escrow(of, index)) && m.Submit? && Took(c, s, m)
    requires m.ix.TopUpEscrow? && m.ix.of == of && m.ix.index == index
    ensures var escrow := Escrow(of, index);
            var missing := if At(s, escrow).owner == System then Shortfall(Lamports(s, escrow), c.rent(0)) else 0;
            ChangeOf(c, s, m, of, index) == Change(missing + m.ix.amount, 0, 0, 0)
  {
    hide SessionOk, Took, Next, Abs;
  }

  lemma CloseChange(c: Chain, s: Store, m: Move, of: Key, index: byte)
    requires SessionOk(s, Escrow(of, index)) && m.Submit? && Took(c, s, m)
    requires m.ix.CloseEscrow? && m.ix.payer == of && m.ix.index == index
    ensures ChangeOf(c, s, m, of, index) == Change(0, 0, 0, Lamports(s, Escrow(of, index)))
  {
    hide SessionOk, Took, Next, Abs;
  }

  lemma SessionChange(c: Chain, s: Store, m: Move, of: Key, index: byte)
    requires SessionOk(s, Escrow(of, index)) && m.Submit? && Took(c, s, m) && Focus(m.ix) == Some(Escrow(of, index))
    ensures var x := Abs(s, Escrow(of, index));
            var settled := if m.ix.Finalize? && x.Live? && x.pending.Some?
                           then x.pending.value.lamports - x.recorded else 0;
            ChangeOf(c, s, m, of, index) == Change(0, settled, 0, 0)
  {
    hide SessionOk, Took, Next, Abs;
  }

  lemma BystanderChange(c: Chain, s: Store, m: Move, of: Key, index: byte)
    requires SessionOk(s, Escrow(of, index))
    requires m.Submit? && Took(c, s, m) ==>
               && !(m.ix.TopUpEscrow? && m.ix.of == of && m.ix.index == index)
               && !(m.ix.CloseEscrow? && m.ix.payer == of && m.ix.index == index)
               && Focus(m.ix) != Some(Escrow(of, index))
    ensures ChangeOf(c, s, m, of, index)
            == Change(0, 0, Lamports(Next(c, s, m), Escrow(of, index)) - Lamports(s, Escrow(of, index)), 0)
  {
    hide SessionOk, Took, Next, Abs;
  }

  lemma EscrowBystander(c: Chain, s: Store, m: Move, of: Key, index: byte)
    requires Inv(c, s) && c.Valid()
    requires !(m.Submit? && Took(c, s, m) && m.ix.CloseEscrow? && m.ix.payer == of && m.ix.index == index)
    requires !(m.Submit? && Took(c, s, m) && Focus(m.ix) == Some(Escrow(of, index)))
    ensures Lamports(s, Escrow(of, index)) <= Lamports(Next(c, s, m), Escrow(of, index))
  {
    hide Total, Frame, SessionOk, VaultOk, ConfigOk, Next, Legal, Succeeds, Chain.Valid, Abs, ReplayFrom, EventsOf,
         ProgramAddress, SessionKeys, Delegatable, Touched;
    var escrow, t := Escrow(of, index), Next(c, s, m);
    if t != s {
      Effective(c, s, m);
      EscrowAddress(of, index);
      if m.Outside? {
        KeptBy(s, t, {}, escrow);
      } else {
        InstructionStep(c, s, m);
        EscrowNotTouched(m.ix, of, index);
        KeptBy(s, t, Touched(m.ix), escrow);
      }
    }
  }

  lemma EscrowAddress(of: Key, index: byte)
    ensures ProgramAddress(Escrow(of, index)) && Delegatable(Escrow(of, index))
  {}

  lemma EscrowNotTouched(ix: Instruction, of: Key, index: byte)
    requires Focus(ix) != Some(Escrow(of, index)) && !(ix.CloseEscrow? && ix.payer == of && ix.index == index)
    requires Focus(ix).Some? ==> Delegatable(Focus(ix).value)
    ensures Escrow(of, index) !in Touched(ix)
  {}

  lemma EscrowToppedUp(c: Chain, s: Store, m: Move)
    requires m.Submit? && Took(c, s, m) && m.ix.TopUpEscrow?
    ensures var escrow := Escrow(m.ix.of, m.ix.index);
            var missing := if At(s, escrow).owner == System then Shortfall(Lamports(s, escrow), c.rent(0)) else 0;
            Lamports(Next(c, s, m), escrow) == Lamports(s, escrow) + missing + m.ix.amount
  {
    hide Total, Frame, CreatePda, Transfer, ProgramAddress, Shortfall;
    TopUpEffect(c, s, m.signers, m.ix.payer, m.ix.of, m.ix.index, m.ix.amount, Next(c, s, m));
  }

  lemma EscrowClosed(c: Chain, s: Store, m: Move)
    requires m.Submit? && Took(c, s, m) && m.ix.CloseEscrow?
    ensures Lamports(Next(c, s, m), Escrow(m.ix.payer, m.ix.index)) == 0
  {
    hide Total, Frame, Transfer, ProgramAddress;
    CloseEscrowEffect(c, s, m.signers, m.ix.payer, m.ix.index, Next(c, s, m));
  }

  /** What the instructions about a delegated escrow do to its balance: only settling changes it. */
  lemma EscrowSession(c: Chain, s: Store, m: Move, d: Key)
    requires m.Submit? && Took(c, s, m) && Focus(m.ix) == Some(d) && d.Escrow? && SessionOk(s, d)
    ensures var x, t := Abs(s, d), Next(c, s, m);
            Lamports(t, d) == Lamports(s, d)
                              + (if m.ix.Finalize? && x.Live? && x.pending.Some?
                                 then x.pending.value.lamports - x.recorded else 0)
  {
    hide Total, Frame, SessionOk, Abs, HandleCommit, HandleFinalize, HandleUndelegate, HandleDelegate,
         HandleDelegateEscrow, Stale, Step, SessionKeys;
    var t := Next(c, s, m);
    match m.ix
    case Delegate(payer, _, program, args) => DelegateSigned(c, s, m.signers, payer, d, program, args);
    case DelegateEscrow(payer, of, index, args) =>
      EscrowSigned(c, s, m.signers, payer, of, index, args);
      DelegateEscrowEffect(c, s, m.signers, payer, of, index, args, t);
    case Commit(v, _, args) => EscrowCommit(c, s, m.signers, v, d, args, t);
    case CommitFromBuffer(v, _, buffer, args) =>
        EscrowCommit(c, s, m.signers, v, d, args.(state := At(s, buffer).data), t);
    case Finalize(v, _) => EscrowFinalize(c, s, m.signers, v, d, t);
    case Undelegate(v, _, program, reimbursement, reply) =>
        EscrowUndelegate(c, s, m.signers, v, d, program, reimbursement, reply, t);
  }

  lemma DelegateSigned(c: Chain, s: Store, signers: set<Key>, payer: Key, d: Key, program: Key, args: DelegateArgs)
    requires HandleDelegate(c, s, signers, payer, d, program, args).Ok?
    ensures payer in signers && d in signers
  {
    hide CreatePda, SeedsMatch, DelegateBuffer, EncodeMetadata, EncodeRecord, Encodable;
  }

  lemma EscrowCommit(c: Chain, s: Store, signers: set<Key>, v: Key, d: Key, args: CommitArgs, t: Store)
    requires HandleCommit(c, s, signers, v, d, args) == Ok(t) && SessionOk(s, d)
    requires forall k :: k in signers ==> !ProgramAddress(k)
    ensures Lamports(t, d) == Lamports(s, d)
  {
    hide Total, Frame, SessionOk, Abs, HandleCommit, Stale, Step, SessionKeys, ProgramAddress;
    CommitSigned(c, s, signers, v, d, args);
    if Stale(s, d, args.slot) {
      StaleCommitSkips(c, s, signers, v, d, args, t);
    } else {
      CommitEffect(c, s, signers, v, d, args, t);
    }
  }

  lemma EscrowFinalize(c: Chain, s: Store, signers: set<Key>, v: Key, d: Key, t: Store)
    requires HandleFinalize(c, s, signers, v, d) == Ok(t) && SessionOk(s, d) && ProgramAddress(d)
    requires forall k :: k in signers ==> !ProgramAddress(k)
    ensures var x := Abs(s, d);
            Lamports(t, d)
                == Lamports(s, d) + (if x.Live? && x.pending.Some? then x.pending.value.lamports - x.recorded else 0)
  {
    hide Total, Frame, SessionOk, Abs, HandleFinalize, SessionKeys, ProgramAddress;
    FinalizeSigned(c, s, signers, v, d);
    LiveRecord(s, d);
    if Fresh(s, CommitState(d)) {
      FinalizeSkipsPaired(c, s, signers, v, d, t);
    } else {
      FinalizeEffect(c, s, signers, v, d, t);
      AbsBalance(s, d);
    }
  }

  lemma EscrowUndelegate(c: Chain, s: Store, signers: set<Key>, v: Key, d: Key, program: Key, reimbursement: Key,
                         reply: CpiReply, t: Store)
    requires HandleUndelegate(c, s, signers, v, d, program, reimbursement, reply) == Ok(t) && SessionOk(s, d)
            && d.Escrow?
    requires forall k :: k in signers ==> !ProgramAddress(k)
    ensures Lamports(t, d) == Lamports(s, d) && At(t, d).data == []
  {
    hide Total, Frame, SessionOk, Abs, HandleUndelegate, SessionKeys;
    UndelegateSigned(c, s, signers, v, d, program, reimbursement, reply);
    UndelegateGates(c, s, signers, v, d, program, reimbursement, reply, t);
    if At(s, d).data != [] {
      DataRefused(c, s, signers, v, d, program, reimbursement, reply);
      assert false;
    } else {
      UndelegateEmpty(c, s, signers, v, d, program, reimbursement, reply, t);
    }
  }

  function Plus(a: Change, b: Change): Change {
    Change(a.paid + b.paid, a.settled + b.settled, a.arrived + b.arrived, a.refunded + b.refunded)
  }

  /** The book of an escrow over a run. */
  ghost function Book(c: Chain, s: Store, moves: seq<Move>, of: Key, index: byte): Change
    requires Inv(c, s) && c.Valid()
  {
    if moves == [] then Change(0, 0, 0, 0)
    else
      var front := moves[..|moves| - 1];
      RunKeeps(c, s, front);
      Plus(Book(c, s, front, of, index), ChangeOf(c, Run(c, s, front), moves[|moves| - 1], of, index))
  }

  lemma {:induction false} EscrowBook(c: Chain, s: Store, moves: seq<Move>, of: Key, index: byte)
    requires Inv(c, s) && c.Valid()
    ensures var escrow := Escrow(of, index);
            Lamports(Run(c, s, moves), escrow) == Lamports(s, escrow) + Net(Book(c, s, moves, of, index))
    ensures Book(c, s, moves, of, index).arrived >= 0
  {
    hide Next, Inv, Chain.Valid, ChangeOf, SessionOk, Lamports;
    if moves != [] {
      var front := moves[..|moves| - 1];
      RunKeeps(c, s, front);
      EscrowBook(c, s, front, of, index);
      InvSession(c, Run(c, s, front), Escrow(of, index));
      EscrowChanges(c, Run(c, s, front), moves[|moves| - 1], of, index);
    }
  }

  /** The lifetime of an escrow: when it is closed after any run, the payer gets back everything paid into it so far,
      rent included, and whatever else arrived, plus the net settlement of its sessions, less earlier refunds. */
  lemma EscrowRefund(c: Chain, s: Store, moves: seq<Move>, payer: Key, index: byte, signers: set<Key>)
    requires Genesis(s) && c.Valid()
    requires Took(c, Run(c, s, moves), Submit(CloseEscrow(payer, index), signers))
    ensures Inv(c, s)
    ensures var t := Run(c, s, moves);
            var u := Next(c, t, Submit(CloseEscrow(payer, index), signers));
            var book := Book(c, s, moves, payer, index);
            && Lamports(u, Escrow(payer, index)) == 0
            && Lamports(u, payer) - Lamports(t, payer)
               == Lamports(s, Escrow(payer, index)) + book.paid + book.settled + book.arrived - book.refunded
            && book.arrived >= 0
  {
    hide Total, Frame, Run, Book, Inv, Chain.Valid, Genesis, Transfer, ProgramAddress;
    GenesisInv(c, s);
    EscrowBook(c, s, moves, payer, index);
    var t := Run(c, s, moves);
    CloseEscrowEffect(c, t, signers, payer, index, Next(c, t, Submit(CloseEscrow(payer, index), signers)));
  }

  /** An escrow account that is not delegated has no data. */
  predicate Plain(s: Store, d: Key) {
    At(s, d).owner == System ==> At(s, d).data == []
  }

  lemma StaysPlain(c: Chain, s: Store, m: Move, d: Key)
    requires Inv(c, s) && c.Valid() && SessionOk(s, d) && d.Escrow? && Plain(s, d)
    ensures Plain(Next(c, s, m), d)
  {
    hide Total, Frame, SessionOk, Next, Chain.Valid, Abs, Inv, Touched, Legal, Succeeds;
    var t := Next(c, s, m);
    if t != s {
      Effective(c, s, m);
      if m.Outside? {
        KeptBy(s, t, {}, d);
      } else {
        InstructionStep(c, s, m);
        if d !in Touched(m.ix) {
          KeptBy(s, t, Touched(m.ix), d);
        } else {
          TouchedEscrow(m.ix, d);
          TouchedStaysPlain(c, s, m, d);
        }
      }
    }
  }

  lemma TouchedEscrow(ix: Instruction, d: Key)
    requires d.Escrow? && d in Touched(ix)
    ensures Focus(ix) == Some(d) || (ix.CloseEscrow? && d == Escrow(ix.payer, ix.index))
  {}

  lemma TouchedStaysPlain(c: Chain, s: Store, m: Move, d: Key)
    requires Inv(c, s) && c.Valid() && SessionOk(s, d) && d.Escrow? && Plain(s, d)
    requires m.Submit? && Legal(s, m) && Succeeds(c, s, m.signers, m.ix)
    requires Focus(m.ix) == Some(d) || (m.ix.CloseEscrow? && d == Escrow(m.ix.payer, m.ix.index))
    ensures Plain(Next(c, s, m), d)
  {
    hide Total, Frame, SessionOk, Abs, Chain.Valid, Inv, HandleCommit, HandleFinalize, HandleUndelegate, HandleDelegate,
         HandleDelegateEscrow, Stale, Step, SessionKeys, Transfer;
    var t := Next(c, s, m);
    match m.ix
    case Delegate(payer, _, program, args) => DelegateSigned(c, s, m.signers, payer, d, program, args);
    case DelegateEscrow(payer, of, index, args) =>
      EscrowSigned(c, s, m.signers, payer, of, index, args);
      DelegateEscrowEffect(c, s, m.signers, payer, of, index, args, t);
      LiveOwned(t, d);
    case Commit(v, _, args) => EscrowCommitted(c, s, m.signers, v, d, args, t);
    case CommitFromBuffer(v, _, buffer, args) =>
        EscrowCommitted(c, s, m.signers, v, d, args.(state := At(s, buffer).data), t);
    case Finalize(v, _) =>
      FinalizeSigned(c, s, m.signers, v, d);
      LiveRecord(s, d);
      if Fresh(s, CommitState(d)) {
        FinalizeSkipsPaired(c, s, m.signers, v, d, t);
      } else {
        FinalizeEffect(c, s, m.signers, v, d, t);
        StepStaysLive(Abs(s, d), Finalized);
        LiveOwned(t, d);
      }
    case Undelegate(v, _, program, reimbursement, reply) =>
        EscrowUndelegate(c, s, m.signers, v, d, program, reimbursement, reply, t);
    case CloseEscrow(payer, index) => CloseKeepsData(c, s, m.signers, payer, index, t);
  }

  lemma EscrowCommitted(c: Chain, s: Store, signers: set<Key>, v: Key, d: Key, args: CommitArgs, t: Store)
    requires HandleCommit(c, s, signers, v, d, args) == Ok(t) && SessionOk(s, d)
    requires forall k :: k in signers ==> !ProgramAddress(k)
    ensures At(t, d) == At(s, d)
  {
    hide Total, Frame, SessionOk, Abs, HandleCommit, Stale, Step, SessionKeys, ProgramAddress;
    CommitSigned(c, s, signers, v, d, args);
    if Stale(s, d, args.slot) {
      StaleCommitSkips(c, s, signers, v, d, args, t);
    } else {
      CommitEffect(c, s, signers, v, d, args, t);
    }
  }

  lemma LiveOwned(s: Store, d: Key)
    requires SessionOk(s, d) && Abs(s, d).Live?
    ensures At(s, d).owner == Dlp
  {
    hide PendingOk, RecordOf, MetadataOf, CommitOf;
  }

  lemma CloseKeepsData(c: Chain, s: Store, signers: set<Key>, payer: Key, index: byte, t: Store)
    requires HandleCloseEscrow(c, s, signers, payer, index) == Ok(t)
    ensures var escrow := Escrow(payer, index);
            At(t, escrow).owner == At(s, escrow).owner && At(t, escrow).data == At(s, escrow).data
  {
    hide Transfer;
    var escrow := Escrow(payer, index);
    assert payer < escrow;
    if Lamports(s, escrow) > 0 {
      TransferKeeps(s, escrow, payer, Lamports(s, escrow), t);
    }
  }

  lemma TransferKeeps(s: Store, from: Key, to: Key, amount: u64, t: Store)
    requires Transfer(s, from, to, amount) == Ok(t)
    ensures At(t, from).owner == At(s, from).owner && At(t, from).data == At(s, from).data
  {}

  lemma {:induction false} RunStaysPlain(c: Chain, s: Store, moves: seq<Move>, d: Key)
    requires Genesis(s) && c.Valid() && d.Escrow?
    ensures Inv(c, s) && Inv(c, Run(c, s, moves)) && Plain(Run(c, s, moves), d)
  {
    hide Next, Inv, Chain.Valid, SessionOk, Genesis, Plain;
    GenesisInv(c, s);
    RunKeeps(c, s, moves);
    if moves != [] {
      var front := moves[..|moves| - 1];
      RunStaysPlain(c, s, front, d);
      InvSession(c, Run(c, s, front), d);
      StaysPlain(c, Run(c, s, front), moves[|moves| - 1], d);
    } else {
      GenesisPlain(s, d);
    }
  }

  lemma GenesisPlain(s: Store, d: Key)
    requires Genesis(s) && d.Escrow?
    ensures Plain(s, d)
  {
    assert Fresh(s, d);
  }

  /** After any run an escrow account can be closed, and so refunded, exactly when its payer signs and it is not
      delegated: nothing else can be in the way. */
  lemma EscrowCloses(c: Chain, s: Store, moves: seq<Move>, payer: Key, index: byte, signers: set<Key>)
    requires Genesis(s) && c.Valid() && Total(s) < U64_LIMIT && !ProgramAddress(payer)
    ensures var t := Run(c, s, moves);
            Succeeds(c, t, signers, CloseEscrow(payer, index)) <==>
              payer in signers && At(t, Escrow(payer, index)).owner == System
  {
    hide Run, Inv, Chain.Valid, Genesis, Total, ProgramAddress;
    RunStaysPlain(c, s, moves, Escrow(payer, index));
    RunKeeps(c, s, moves);
    CloseEscrowContract(c, Run(c, s, moves), signers, payer, index);
  }

  // ---- Repeated top-ups ----

  /** The same payer tops the same escrow up again and again. */
  function TopUps(c: Chain, s: Store, signers: set<Key>, payer: Key, of: Key, index: byte,
                  amounts: seq<u64>): Result<Store> {
    if amounts == [] then Ok(s)
    else
      var s1 :- TopUps(c, s, signers, payer, of, index, amounts[..|amounts| - 1]);
      HandleTopUpEscrow(c, s1, signers, payer, of, index, amounts[|amounts| - 1])
  }

  function Amounts(amounts: seq<u64>): nat {
    if amounts == [] then 0 else Amounts(amounts[..|amounts| - 1]) + amounts[|amounts| - 1]
  }

  /** The rent is charged once, if at all: however often an escrow is topped up, it ends with the larger of its balance
      and the rent minimum, plus the amounts; and the payer is short of exactly that much. */
  lemma {:induction false} TopUpsChargeRentOnce(c: Chain, s: Store, signers: set<Key>, payer: Key, of: Key, index: byte,
                                                amounts: seq<u64>, t: Store)
    requires TopUps(c, s, signers, payer, of, index, amounts) == Ok(t) && amounts != []
    requires !ProgramAddress(payer) && At(s, Escrow(of, index)).owner == System
    ensures var escrow := Escrow(of, index);
            && At(t, escrow).owner == System
            && Lamports(t, escrow) == Lamports(s, escrow) + Shortfall(Lamports(s, escrow), c.rent(0)) + Amounts(amounts)
            && Lamports(s, payer) - Lamports(t, payer) == Lamports(t, escrow) - Lamports(s, escrow)
  {
    hide Total, Frame, HandleTopUpEscrow, ProgramAddress;
    var front := amounts[..|amounts| - 1];
    var s1 := TopUps(c, s, signers, payer, of, index, front).value;
    TopUpEffect(c, s1, signers, payer, of, index, amounts[|amounts| - 1], t);
    if front != [] {
      TopUpsChargeRentOnce(c, s, signers, payer, of, index, front, s1);
    }
  }
}
