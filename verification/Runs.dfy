/** Runs of the program: instructions in any order, mixed with anything else the chain does. */
module Runs {
  import opened Outcomes
  import opened Octets
  import opened Layouts
  import opened Store
  import opened Handlers
  import opened Sessions
  import opened Invariants
  import opened SessionEffects
  import opened UndelegateEffects
  import opened VaultEffects
  import opened ConfigEffects
  import opened EscrowEffects

  /** One step of the chain: an instruction of this program with the keys that signed it, or anything done by other
      programs, deposits into delegated accounts included. */
  datatype Move =
    | Submit(ix: Instruction, signers: set<Key>)
    | Outside(after: Store)

  /** Nobody holds a key to an address the program derives. Other programs may change what is not protected and
      add to what is, and they neither make nor lose lamports. */
  ghost predicate Legal(s: Store, m: Move) {
    match m
    case Submit(_, signers) => forall k :: k in signers ==> !ProgramAddress(k)
    case Outside(after) => Frame(s, after, {}) && Total(after) == Total(s)
  }

  ghost function Next(c: Chain, s: Store, m: Move): Store {
    if !Legal(s, m) then s
    else match m
         case Submit(ix, signers) => Exec(c, s, signers, ix)
         case Outside(after) => after
  }

  ghost function Run(c: Chain, s: Store, moves: seq<Move>): Store {
    if moves == [] then s
    else Next(c, Run(c, s, moves[..|moves| - 1]), moves[|moves| - 1])
  }

  lemma {:induction false} RunAppend(c: Chain, s: Store, moves: seq<Move>, more: seq<Move>)
    ensures Run(c, s, moves + more) == Run(c, Run(c, s, moves), more)
  {
    hide Next;
    if more == [] {
      assert moves + more == moves;
    } else {
      RunAppend(c, s, moves, more[..|more| - 1]);
      assert (moves + more)[..|moves + more| - 1] == moves + more[..|more| - 1];
    }
  }

  lemma RunOne(c: Chain, s: Store, m: Move)
    ensures Run(c, s, [m]) == Next(c, s, m)
  {
    hide Next;
    assert [m][..0] == [];
    assert Run(c, s, []) == s;
  }

  lemma OutsideNext(c: Chain, s: Store, t: Store)
    requires Legal(s, Outside(t))
    ensures Next(c, s, Outside(t)) == t
  {}

  lemma RunNone(c: Chain, s: Store)
    ensures Run(c, s, []) == s
  {}

  // ---- What an instruction may touch ----

  /** The account whose session an instruction may open, change or end. */
  function Focus(ix: Instruction): Option<Key> {
    match ix
    case Delegate(_, d, _, _) => Some(d)
    case Commit(_, d, _) => Some(d)
    case CommitFromBuffer(_, d, _, _) => Some(d)
    case Finalize(_, d) => Some(d)
    case Undelegate(_, d, _, _, _) => Some(d)
    case DelegateEscrow(_, of, index, _) => Some(Escrow(of, index))
    case _ => None
  }

  /** The protected accounts an instruction may change other than by adding lamports. */
  function Touched(ix: Instruction): set<Key> {
    match ix
    case InitFeesVault(_) => {FeesVault}
    case InitValidatorVault(_, _, identity) => {ValidatorVault(identity)}
    case CloseValidatorVault(_, _, identity) => {ValidatorVault(identity)}
    case ClaimValidatorFees(v, _) => {ValidatorVault(v)}
    case ClaimProtocolFees(_) => {FeesVault}
    case Whitelist(_, _, program, _, _) => {Config(program)}
    case TopUpEscrow(_, _, _, _) => {}
    case CloseEscrow(payer, index) => {Escrow(payer, index)}
    case _ => SessionKeys(Focus(ix).value)
  }

  // ---- The events of one account, read off a step ----

  /** Lamports that arrived on a delegated account. */
  function Arrived(amount: int): seq<Event> {
    if amount > 0 then [Deposited(amount)] else []
  }

  function Opening(s: Store, d: Key, payer: Key, ownerProgram: Key, seeds: seq<Bytes>): Event {
    var staged := At(s, DelegateBuffer(d, ownerProgram)).data;
    Delegated(ownerProgram, payer, seeds, Lamports(s, d), if staged == [] then At(s, d).data else staged)
  }

  /** What happened to the session of d in a step from s to t. A session begins when its record appears and ends when
      it disappears; a commit takes effect when the commit state account appears and is finalized when it disappears.
      The rest is taken from the instruction. Everything else is an arrival of lamports, or nothing. */
  ghost function EventsOf(s: Store, m: Move, t: Store, d: Key): seq<Event>
    requires SessionOk(s, d)
  {
    if Fresh(s, Record(d)) then
      if Fresh(t, Record(d)) then []
      else match m
           case Submit(Delegate(payer, _, program, args), _) => [Opening(s, d, payer, program, args.seeds)]
           case Submit(DelegateEscrow(payer, of, index, _), _) => [Opening(s, d, payer, System, EscrowSeeds(of, index))]
           case _ => []
    else if Fresh(t, Record(d)) then
      if m.Submit? && m.ix.Undelegate? then [Undelegated(At(t, d).data)] else []
    else if Fresh(s, CommitState(d)) && !Fresh(t, CommitState(d)) then
      match m
      case Submit(Commit(v, _, args), _) => [Committed(v, args.slot, args.lamports, args.allowUndelegation, args.state)]
      case Submit(CommitFromBuffer(v, _, buffer, args), _) =>
        [Committed(v, args.slot, args.lamports, args.allowUndelegation, At(s, buffer).data)]
      case _ => []
    else if !Fresh(s, CommitState(d)) && Fresh(t, CommitState(d)) then
      if m.Submit? && m.ix.Finalize?
      then [Finalized] + Arrived(Lamports(t, d) - (Lamports(s, d) - RecordOf(s, d).lamports + CommitOf(s, d).lamports))
      else []
    else Arrived(Lamports(t, d) - Lamports(s, d))
  }

  // ---- Replaying one or two events ----

  lemma ReplayOne(x: Session, e: Event)
    ensures ReplayFrom(x, [e]) == Step(x, e)
  {
    assert [e][..0] == [];
    assert ReplayFrom(x, []) == Some(x);
  }

  lemma ReplayArrived(x: Session, amount: nat)
    requires x.Live?
    ensures ReplayFrom(x, Arrived(amount)) == Some(Grown(x, amount))
  {
    if amount > 0 {
      ReplayOne(x, Deposited(amount));
    } else {
      assert x.(surplus := x.surplus + amount) == x;
    }
  }

  lemma ReplayOneArrived(x: Session, e: Event, amount: nat)
    requires Step(x, e).Some? && Step(x, e).value.Live?
    ensures ReplayFrom(x, [e] + Arrived(amount)) == Some(Grown(Step(x, e).value, amount))
  {
    ReplayOne(x, e);
    var y := Step(x, e).value;
    if amount > 0 {
      var es := [e] + Arrived(amount);
      assert es[..1] == [e];
      assert ReplayFrom(x, es) == Step(y, Deposited(amount));
    } else {
      assert [e] + Arrived(amount) == [e];
      assert y.(surplus := y.surplus + amount) == y;
    }
  }

  // ---- The step of the session an instruction is about ----

  /** The step conserves lamports, keeps protected accounts of other sessions, and moves the session of d by
      exactly its events. */
  ghost predicate SessionStepped(s: Store, m: Move, t: Store, d: Key)
    requires SessionOk(s, d)
  {
    && Total(t) == Total(s) && Frame(s, t, SessionKeys(d))
    && SessionOk(t, d)
    && ReplayFrom(Abs(s, d), EventsOf(s, m, t, d)) == Some(Abs(t, d))
    && (t == s || Delegatable(d))
  }

  /** A step without effect has no events. */
  lemma Stutter(s: Store, m: Move, d: Key)
    requires SessionOk(s, d)
    ensures SessionStepped(s, m, s, d)
  {
    FrameSame(s, SessionKeys(d));
    hide SessionKeys, LiveOk, RecordOf, MetadataOf, CommitOf;
    assert EventsOf(s, m, s, d) == [];
  }

  lemma DelegateStep(c: Chain, s: Store, m: Move, payer: Key, d: Key, program: Key, args: DelegateArgs, t: Store)
    requires m.Submit? && m.ix == Delegate(payer, d, program, args) && Legal(s, m)
    requires HandleDelegate(c, s, m.signers, payer, d, program, args) == Ok(t) && SessionOk(s, d)
    ensures SessionStepped(s, m, t, d)
  {
    hide CreatePda, SeedsMatch, DelegateBuffer, ProgramAddress, Total, Frame, SessionKeys, LiveOk, RecordOf,
         MetadataOf, CommitOf, ReplayFrom, EncodeMetadata, EncodeRecord, Encodable;
    assert payer in m.signers && d in m.signers;
    hide HandleDelegate;
    DelegateEffect(c, s, m.signers, payer, d, program, args, t);
    LiveRecord(t, d);
    ReplayOne(Idle, Opening(s, d, payer, program, args.seeds));
  }

  lemma DelegateEscrowStep(c: Chain, s: Store, m: Move, payer: Key, of: Key, index: byte, args: DelegateArgs, t: Store)
    requires m.Submit? && m.ix == DelegateEscrow(payer, of, index, args) && Legal(s, m)
    requires HandleDelegateEscrow(c, s, m.signers, payer, of, index, args) == Ok(t) && SessionOk(s, Escrow(of, index))
    ensures SessionStepped(s, m, t, Escrow(of, index))
  {
    hide HandleDelegate, DelegateBuffer, ProgramAddress, Total, Frame, SessionKeys, LiveOk, RecordOf, MetadataOf,
         CommitOf, ReplayFrom, EscrowSeeds;
    assert payer in m.signers;
    DelegateEscrowEffect(c, s, m.signers, payer, of, index, args, t);
    ReplayOne(Idle, Opening(s, Escrow(of, index), payer, System, EscrowSeeds(of, index)));
  }

  /** The bytes and the arguments of a commit, inline or taken from a buffer account. */
  predicate Commits(ix: Instruction, s: Store, v: Key, d: Key, args: CommitArgs) {
    || ix == Commit(v, d, args)
    || (ix.CommitFromBuffer? && ix == CommitFromBuffer(v, d, ix.stateBuffer, ix.commitArgs)
        && args == ix.commitArgs.(state := At(s, ix.stateBuffer).data))
  }

  lemma CommitStep(c: Chain, s: Store, m: Move, v: Key, d: Key, args: CommitArgs, t: Store)
    requires m.Submit? && Commits(m.ix, s, v, d, args) && Legal(s, m)
    requires HandleCommit(c, s, m.signers, v, d, args) == Ok(t) && SessionOk(s, d)
    ensures SessionStepped(s, m, t, d)
  {
    hide ProgramAddress, Total, Frame, SessionKeys, LiveOk, RecordOf, MetadataOf, CommitOf, HandleCommit, SessionOk,
         Abs, Stale, Admitted, Sessions.Step, ReplayFrom;
    CommitSigned(c, s, m.signers, v, d, args);
    if Stale(s, d, args.slot) {
      StaleCommitSkips(c, s, m.signers, v, d, args, t);
      Stutter(s, m, d);
    } else {
      CommitEffect(c, s, m.signers, v, d, args, t);
      var e := Committed(v, args.slot, args.lamports, args.allowUndelegation, args.state);
      StepStaysLive(Abs(s, d), e);
      LiveRecord(s, d);
      LiveRecord(t, d);
      assert EventsOf(s, m, t, d) == [e];
      ReplayOne(Abs(s, d), e);
    }
  }

  lemma LiveRecord(s: Store, d: Key)
    requires SessionOk(s, d)
    ensures Abs(s, d).Live? <==> !Fresh(s, Record(d))
    ensures Abs(s, d).Live? ==> Delegatable(d)
    ensures Abs(s, d).Live? ==> (Abs(s, d).pending.Some? <==> !Fresh(s, CommitState(d)))
  {}

  lemma CommitSigned(c: Chain, s: Store, signers: set<Key>, v: Key, d: Key, args: CommitArgs)
    requires HandleCommit(c, s, signers, v, d, args).Ok?
    ensures v in signers
  {
    hide DecodeMetadata, DecodeRecord, PostCollateral, StoreCommit, Overwrite, Admitted;
  }

  lemma FinalizeStep(c: Chain, s: Store, m: Move, v: Key, d: Key, t: Store)
    requires m.Submit? && m.ix == Finalize(v, d) && Legal(s, m)
    requires HandleFinalize(c, s, m.signers, v, d) == Ok(t) && SessionOk(s, d)
    ensures SessionStepped(s, m, t, d)
  {
    hide ProgramAddress, Total, Frame, SessionKeys, LiveOk, RecordOf, MetadataOf, CommitOf, ApplyCommit,
         HandleFinalize, SessionOk, Abs, Sessions.Step, ReplayFrom;
    assert v in m.signers by { FinalizeSigned(c, s, m.signers, v, d); }
    if Fresh(s, CommitState(d)) {
      FinalizeSkipsPaired(c, s, m.signers, v, d, t);
      Stutter(s, m, d);
    } else {
      FinalizeEffect(c, s, m.signers, v, d, t);
      LiveRecord(s, d);
      LiveRecord(t, d);
      StepStaysLive(Abs(s, d), Finalized);
      FinalizedRecorded(s, d);
      var extra := Lamports(t, d) - Step(Abs(s, d), Finalized).value.recorded;
      assert EventsOf(s, m, t, d) == [Finalized] + Arrived(extra);
      ReplayOneArrived(Abs(s, d), Finalized, extra);
    }
  }

  lemma StepStaysLive(x: Session, e: Event)
    requires Step(x, e).Some? && (e.Committed? || e.Finalized?)
    ensures Step(x, e).value.Live?
  {}

  lemma FinalizedRecorded(s: Store, d: Key)
    requires SessionOk(s, d) && Abs(s, d).Live? && Abs(s, d).pending.Some?
    ensures DecodeRecord(At(s, Record(d)).data).Ok? && DecodeCommitRecord(At(s, CommitRecord(d)).data).Ok?
    ensures Step(Abs(s, d), Finalized).value.recorded
            == Lamports(s, d) - RecordOf(s, d).lamports + CommitOf(s, d).lamports
  {
    hide DecodeRecord, DecodeCommitRecord, DecodeMetadata, EncodeRecord, EncodeMetadata;
  }

  lemma FinalizeSigned(c: Chain, s: Store, signers: set<Key>, v: Key, d: Key)
    requires HandleFinalize(c, s, signers, v, d).Ok?
    ensures v in signers
  {
    hide ApplyCommit;
  }

  lemma FinalizeSkipsPaired(c: Chain, s: Store, signers: set<Key>, v: Key, d: Key, t: Store)
    requires HandleFinalize(c, s, signers, v, d) == Ok(t) && SessionOk(s, d) && Fresh(s, CommitState(d))
    ensures t == s
  {
    hide ApplyCommit, RecordOf, MetadataOf, CommitOf, RecordOk, MetadataOk, PendingOk;
  }

  lemma UndelegateStep(c: Chain, s: Store, m: Move, v: Key, d: Key, program: Key, reimbursement: Key, reply: CpiReply,
                       t: Store)
    requires m.Submit? && m.ix == Undelegate(v, d, program, reimbursement, reply) && Legal(s, m)
    requires HandleUndelegate(c, s, m.signers, v, d, program, reimbursement, reply) == Ok(t)
    requires SessionOk(s, d)
    ensures SessionStepped(s, m, t, d)
  {
    hide ProgramAddress, Total, Frame, SessionKeys, LiveOk, RecordOf, MetadataOf, CommitOf, HandleUndelegate,
         SessionOk, Abs, Sessions.Step, ReplayFrom;
    UndelegateSigned(c, s, m.signers, v, d, program, reimbursement, reply);
    UndelegateEffect(c, s, m.signers, v, d, program, reimbursement, reply, t);
    UndelegateGates(c, s, m.signers, v, d, program, reimbursement, reply, t);
    LiveRecord(t, d);
    var e := Undelegated(At(t, d).data);
    assert EventsOf(s, m, t, d) == [e];
    ReplayOne(Abs(s, d), e);
  }

  lemma UndelegateSigned(c: Chain, s: Store, signers: set<Key>, v: Key, d: Key, program: Key, reimbursement: Key,
                         reply: CpiReply)
    requires HandleUndelegate(c, s, signers, v, d, program, reimbursement, reply).Ok?
    ensures v in signers
  {
    hide Cleanup, ReopenByCpi, CreatePda, ClosePda, DecodeRecord, DecodeMetadata;
  }

  /** Every instruction about a session moves that session by exactly its events. */
  lemma FocusStep(c: Chain, s: Store, m: Move, d: Key)
    requires m.Submit? && Focus(m.ix) == Some(d) && Legal(s, m) && SessionOk(s, d)
    ensures SessionStepped(s, m, Next(c, s, m), d)
  {
    hide HandleDelegate, HandleCommit, HandleFinalize, HandleUndelegate, HandleDelegateEscrow, SessionOk,
         SessionStepped, Legal;
    var t := Next(c, s, m);
    if !Succeeds(c, s, m.signers, m.ix) {
      Stutter(s, m, d);
    } else {
      match m.ix
      case Delegate(payer, _, program, args) => DelegateStep(c, s, m, payer, d, program, args, t);
      case Commit(v, _, args) => CommitStep(c, s, m, v, d, args, t);
      case CommitFromBuffer(v, _, buffer, args) => CommitStep(c, s, m, v, d, args.(state := At(s, buffer).data), t);
      case Finalize(v, _) => FinalizeStep(c, s, m, v, d, t);
      case Undelegate(v, _, program, reimbursement, reply) =>
          UndelegateStep(c, s, m, v, d, program, reimbursement, reply, t);
      case DelegateEscrow(payer, of, index, args) => DelegateEscrowStep(c, s, m, payer, of, index, args, t);
    }
  }

  // ---- The other instructions ----

  /** What the instructions without a session leave of the one account of theirs that they may debit or rewrite. */
  ghost predicate OtherKept(c: Chain, s: Store, ix: Instruction, t: Store) {
    match ix
    case InitFeesVault(_) => VaultOk(c, t, FeesVault)
    case InitValidatorVault(_, _, identity) => VaultOk(c, t, ValidatorVault(identity))
    case CloseValidatorVault(_, _, identity) => VaultOk(c, t, ValidatorVault(identity))
    case ClaimValidatorFees(v, _) => VaultOk(c, t, ValidatorVault(v))
    case ClaimProtocolFees(_) => VaultOk(c, t, FeesVault)
    case Whitelist(_, _, program, _, _) => ConfigOk(c, t, program)
    case CloseEscrow(payer, index) => !Owned(s, Escrow(payer, index))
    case _ => true
  }

  lemma VaultStep(c: Chain, s: Store, m: Move)
    requires m.Submit? && Legal(s, m) && Succeeds(c, s, m.signers, m.ix)
    requires m.ix.InitFeesVault? || m.ix.InitValidatorVault? || m.ix.CloseValidatorVault?
    ensures var t := Next(c, s, m);
            Total(t) == Total(s) && Frame(s, t, Touched(m.ix)) && OtherKept(c, s, m.ix, t)
  {
    hide Total, Frame, CreatePda, ClosePda, ProgramAddress;
    var t := Next(c, s, m);
    match m.ix
    case InitFeesVault(payer) =>
      VaultAddresses(payer);
      VaultOpened(c, s, FeesVault, payer, t);
    case InitValidatorVault(payer, admin, identity) =>
      VaultAddresses(identity);
      VaultOpened(c, s, ValidatorVault(identity), payer, t);
    case CloseValidatorVault(payer, admin, identity) =>
      CloseValidatorVaultEffect(c, s, m.signers, payer, admin, identity, t);
  }

  lemma ClaimStep(c: Chain, s: Store, m: Move)
    requires m.Submit? && Legal(s, m) && Succeeds(c, s, m.signers, m.ix)
    requires m.ix.ClaimValidatorFees? || m.ix.ClaimProtocolFees?
    requires m.ix.ClaimValidatorFees? ==> VaultOk(c, s, ValidatorVault(m.ix.validator))
    ensures var t := Next(c, s, m);
            Total(t) == Total(s) && Frame(s, t, Touched(m.ix)) && OtherKept(c, s, m.ix, t)
  {
    hide Total, Frame, Credit, ProgramAddress, HandleClaimValidatorFees, VaultOk;
    var t := Next(c, s, m);
    match m.ix
    case ClaimValidatorFees(v, claim) =>
      ClaimFromVault(c, s, m.signers, v, claim);
      ClaimMoves(c, s, m.signers, v, claim, t);
    case ClaimProtocolFees(admin) =>
      ClaimProtocolMoves(c, s, m.signers, admin, t);
  }

  lemma WhitelistStep(c: Chain, s: Store, m: Move)
    requires m.Submit? && Legal(s, m) && Succeeds(c, s, m.signers, m.ix) && m.ix.Whitelist?
    requires c.Valid() && ConfigOk(c, s, m.ix.program)
    ensures var t := Next(c, s, m);
            && Total(t) == Total(s) && Frame(s, t, Touched(m.ix)) && OtherKept(c, s, m.ix, t)
            && Approved(t, m.ix.program) == Some(Updated(Approved(s, m.ix.program), m.ix.validator, m.ix.insert))
  {
    hide Total, Frame, LoadConfig, ResizePda, Overwrite, EncodeConfig, ProgramAddress, ConfigOk, Approved, Chain.Valid;
    var t := Next(c, s, m);
    WhitelistEffect(c, s, m.signers, m.ix.authority, m.ix.validator, m.ix.program, m.ix.insert, m.ix.stale, t);
  }

  lemma EscrowStep(c: Chain, s: Store, m: Move)
    requires m.Submit? && Legal(s, m) && Succeeds(c, s, m.signers, m.ix)
    requires m.ix.TopUpEscrow? || m.ix.CloseEscrow?
    ensures var t := Next(c, s, m);
            Total(t) == Total(s) && Frame(s, t, Touched(m.ix)) && OtherKept(c, s, m.ix, t)
  {
    hide Total, Frame, CreatePda, Transfer, ProgramAddress;
    var t := Next(c, s, m);
    match m.ix
    case TopUpEscrow(payer, of, index, amount) =>
      TopUpEffect(c, s, m.signers, payer, of, index, amount, t);
    case CloseEscrow(payer, index) =>
      CloseEscrowEffect(c, s, m.signers, payer, index, t);
  }

  /** Every instruction conserves lamports and keeps every protected account it is not about. */
  lemma InstructionStep(c: Chain, s: Store, m: Move)
    requires m.Submit? && Legal(s, m) && Succeeds(c, s, m.signers, m.ix) && Inv(c, s) && c.Valid()
    ensures var t := Next(c, s, m);
            && Total(t) == Total(s) && Frame(s, t, Touched(m.ix)) && OtherKept(c, s, m.ix, t)
            && (Focus(m.ix).Some? ==> var d := Focus(m.ix).value; SessionStepped(s, m, t, d))
  {
    hide Total, Frame, SessionOk, VaultOk, ConfigOk, Next, Legal, Succeeds, Abs, Chain.Valid, ReplayFrom, SessionKeys,
         Delegatable;
    var ix := m.ix;
    if Focus(ix).Some? {
      assert SessionOk(s, Focus(ix).value);
      FocusStep(c, s, m, Focus(ix).value);
    } else if ix.Whitelist? {
      assert ConfigOk(c, s, ix.program);
      WhitelistStep(c, s, m);
    } else if ix.TopUpEscrow? || ix.CloseEscrow? {
      EscrowStep(c, s, m);
    } else if ix.ClaimValidatorFees? || ix.ClaimProtocolFees? {
      assert ix.ClaimValidatorFees? ==> VaultOk(c, s, ValidatorVault(ix.validator));
      ClaimStep(c, s, m);
    } else {
      VaultStep(c, s, m);
    }
  }

  // ---- Everything else is framed ----

  /** The derived accounts of a live session are touched only by instructions about it. */
  lemma Apart(s: Store, ix: Instruction, d: Key)
    requires SessionOk(s, d) && Focus(ix) != Some(d)
    requires Focus(ix).Some? ==> Delegatable(Focus(ix).value)
    requires ix.CloseEscrow? ==> !Owned(s, Escrow(ix.payer, ix.index))
    ensures {Record(d), Metadata(d), CommitState(d), CommitRecord(d), UndelegateBuffer(d)} !! Touched(ix)
    ensures d !in Touched(ix) || Fresh(s, Record(d))
  {
    hide RecordOk, MetadataOk, PendingOk, RecordOf;
  }

  /** A session that a step leaves alone can only gain lamports, and that is its event. */
  lemma FramedSession(s: Store, m: Move, t: Store, d: Key, except: set<Key>)
    requires Frame(s, t, except) && SessionOk(s, d)
    requires {Record(d), Metadata(d), CommitState(d), CommitRecord(d), UndelegateBuffer(d)} !! except
    requires d !in except || Fresh(s, Record(d))
    ensures SessionOk(t, d) && ReplayFrom(Abs(s, d), EventsOf(s, m, t, d)) == Some(Abs(t, d))
  {
    hide ProgramAddress, LiveOk, RecordOf, MetadataOf, CommitOf, SessionOk, Abs, ReplayFrom;
    SessionFramed(s, t, d, except);
    assert ProgramAddress(Record(d)) && ProgramAddress(CommitState(d)) by { DerivedAddresses(d); }
    assert Kept(At(s, Record(d)), At(t, Record(d)));
    assert Kept(At(s, CommitState(d)), At(t, CommitState(d)));
    LiveRecord(s, d);
    if Abs(s, d).Live? {
      assert EventsOf(s, m, t, d) == Arrived(Lamports(t, d) - Lamports(s, d));
      ReplayArrived(Abs(s, d), Lamports(t, d) - Lamports(s, d));
    } else {
      assert EventsOf(s, m, t, d) == [];
      assert ReplayFrom(Abs(s, d), []) == Some(Abs(s, d)) by { ReplayNothing(Abs(s, d)); }
    }
  }

  lemma ReplayNothing(x: Session)
    ensures ReplayFrom(x, []) == Some(x)
  {}

  lemma DerivedAddresses(d: Key)
    ensures ProgramAddress(Record(d)) && ProgramAddress(CommitState(d))
  {}

  // ---- The theorems about one step ----

  /** A step that changes anything is legal, and an instruction that changes anything succeeded. */
  lemma Effective(c: Chain, s: Store, m: Move)
    requires Next(c, s, m) != s
    ensures Legal(s, m)
    ensures m.Submit? ==> Succeeds(c, s, m.signers, m.ix)
    ensures m.Outside? ==> Frame(s, Next(c, s, m), {}) && Total(Next(c, s, m)) == Total(s)
  {
    hide Handle, Total, Frame;
  }

  /** Each step of the chain moves every session by exactly its events. */
  lemma StepRefines(c: Chain, s: Store, m: Move, d: Key)
    requires Inv(c, s) && c.Valid()
    ensures var t := Next(c, s, m);
            SessionOk(t, d) && ReplayFrom(Abs(s, d), EventsOf(s, m, t, d)) == Some(Abs(t, d))
  {
    hide Total, Frame, VaultOk, ConfigOk, SessionOk, Next, Legal, Succeeds, Abs, Chain.Valid, ReplayFrom, SessionKeys,
         Delegatable, EventsOf, Touched;
    assert SessionOk(s, d);
    var t := Next(c, s, m);
    if t == s {
      Stutter(s, m, d);
    } else {
      Effective(c, s, m);
      if m.Outside? {
        FramedSession(s, m, t, d, {});
      } else {
        InstructionStep(c, s, m);
        if Focus(m.ix) != Some(d) {
          Apart(s, m.ix, d);
          FramedSession(s, m, t, d, Touched(m.ix));
        }
      }
    }
  }

  /** Each step of the chain keeps the invariant and conserves the lamports of all accounts. */
  lemma StepKeeps(c: Chain, s: Store, m: Move)
    requires Inv(c, s) && c.Valid()
    ensures Inv(c, Next(c, s, m)) && Total(Next(c, s, m)) == Total(s)
  {
    hide Total, Frame, VaultOk, ConfigOk, SessionOk, Next, Legal, Succeeds, Abs, Chain.Valid, ReplayFrom, SessionKeys,
         Delegatable, EventsOf, Touched, OtherKept;
    var t := Next(c, s, m);
    forall d ensures SessionOk(t, d) {
      StepRefines(c, s, m, d);
    }
    if t != s {
      Effective(c, s, m);
      if m.Submit? {
        InstructionStep(c, s, m);
      }
      var except := if m.Outside? then {} else Touched(m.ix);
      VaultStays(c, s, m, t, FeesVault, except);
      forall v ensures VaultOk(c, t, ValidatorVault(v)) {
        VaultStays(c, s, m, t, ValidatorVault(v), except);
      }
      forall p ensures ConfigOk(c, t, p) {
        ConfigStays(c, s, m, t, p, except);
      }
    }
  }

  lemma VaultStays(c: Chain, s: Store, m: Move, t: Store, vault: Key, except: set<Key>)
    requires VaultOk(c, s, vault) && (vault == FeesVault || vault.ValidatorVault?)
    requires Frame(s, t, except) && except == (if m.Outside? then {} else Touched(m.ix))
    requires m.Submit? ==> OtherKept(c, s, m.ix, t)
    requires m.Submit? && Focus(m.ix).Some? ==> Delegatable(Focus(m.ix).value)
    ensures VaultOk(c, t, vault)
  {
    hide Frame, VaultOk, ConfigOk;
    if vault !in except {
      VaultFramed(c, s, t, vault, except);
    }
  }

  lemma ConfigStays(c: Chain, s: Store, m: Move, t: Store, program: Key, except: set<Key>)
    requires ConfigOk(c, s, program)
    requires Frame(s, t, except) && except == (if m.Outside? then {} else Touched(m.ix))
    requires m.Submit? ==> OtherKept(c, s, m.ix, t)
    requires m.Submit? && Focus(m.ix).Some? ==> Delegatable(Focus(m.ix).value)
    ensures ConfigOk(c, t, program)
  {
    hide Frame, VaultOk, ConfigOk;
    if Config(program) !in except {
      ConfigFramed(c, s, t, program, except);
    }
  }
}
