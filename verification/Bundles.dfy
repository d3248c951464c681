/** Bundles: several instructions that take effect together or not at all, and what may be added to them. */
module Bundles {
  import opened Outcomes
  import opened Octets
  import opened Layouts
  import opened Store
  import opened Handlers
  import opened Sessions
  import opened Invariants
  import opened SessionEffects
  import opened Runs

  /** One transaction: the first instruction that fails undoes all of them. */
  function Bundle(c: Chain, s: Store, signers: set<Key>, ixs: seq<Instruction>): Result<Store>
    decreases |ixs|
  {
    if ixs == [] then Ok(s)
    else
      var t :- Handle(c, s, signers, ixs[0]);
      Bundle(c, t, signers, ixs[1..])
  }

  /** The guards that commit and finalize have in common. */
  predicate Guarded(s: Store, signers: set<Key>, v: Key, d: Key) {
    v in signers && Owned(s, d) && Owned(s, Record(d)) && Owned(s, Metadata(d)) && Owned(s, ValidatorVault(v))
  }

  /** A commit that is stale here, or a finalize with nothing to finalize here, by someone who may make it. */
  predicate Idles(s: Store, signers: set<Key>, ix: Instruction) {
    match ix
    case Commit(v, d, args) => Guarded(s, signers, v, d) && Stale(s, d, args.slot)
    case CommitFromBuffer(v, d, _, args) => Guarded(s, signers, v, d) && Stale(s, d, args.slot)
    case Finalize(v, d) => Guarded(s, signers, v, d) && Fresh(s, CommitState(d)) && Fresh(s, CommitRecord(d))
    case _ => false
  }

  lemma IdlesSucceed(c: Chain, s: Store, signers: set<Key>, ix: Instruction)
    requires Idles(s, signers, ix)
    ensures Handle(c, s, signers, ix) == Ok(s)
  {
    hide HandleDelegate, HandleUndelegate, HandleInitFeesVault, HandleInitValidatorVault, HandleCloseValidatorVault,
         HandleClaimValidatorFees, HandleClaimProtocolFees, HandleWhitelist, HandleTopUpEscrow, HandleDelegateEscrow,
         HandleCloseEscrow, DecodeMetadata, DecodeRecord, PostCollateral, StoreCommit, Admitted, ApplyCommit,
         Overwrite;
  }

  /** The first bundle is the second with any number of idle instructions put in, each idle at the point where it
      runs. */
  predicate Padded(c: Chain, s: Store, signers: set<Key>, long: seq<Instruction>, short: seq<Instruction>)
    decreases |long|
  {
    || long == short
    || (long != [] && Idles(s, signers, long[0]) && Padded(c, s, signers, long[1..], short))
    || (&& long != [] && short != [] && long[0] == short[0]
        && (Handle(c, s, signers, long[0]).Ok? ==>
            Padded(c, Handle(c, s, signers, long[0]).value, signers, long[1..], short[1..])))
  }

  /** Bundles tolerate them: with or without, the result is the same, whether it is a store or an error. */
  lemma {:induction false} PaddingChangesNothing(c: Chain, s: Store, signers: set<Key>, long: seq<Instruction>,
                                                 short: seq<Instruction>)
    requires Padded(c, s, signers, long, short)
    ensures Bundle(c, s, signers, long) == Bundle(c, s, signers, short)
    decreases |long|
  {
    hide Handle, Idles;
    if long != short {
      if long != [] && Idles(s, signers, long[0]) && Padded(c, s, signers, long[1..], short) {
        IdlesSucceed(c, s, signers, long[0]);
        PaddingChangesNothing(c, s, signers, long[1..], short);
      } else if Handle(c, s, signers, long[0]).Ok? {
        PaddingChangesNothing(c, Handle(c, s, signers, long[0]).value, signers, long[1..], short[1..]);
      }
    }
  }

  /** The first moves are the second with any number of idle submissions put in, by anyone, each idle at the point where
      it runs; other moves may come in between. */
  ghost predicate PaddedMoves(c: Chain, s: Store, long: seq<Move>, short: seq<Move>)
    decreases |long|
  {
    || long == short
    || (&& long != [] && long[0].Submit? && Idles(s, long[0].signers, long[0].ix)
        && PaddedMoves(c, s, long[1..], short))
    || (&& long != [] && short != [] && long[0] == short[0]
        && PaddedMoves(c, Next(c, s, long[0]), long[1..], short[1..]))
  }

  /** So do runs: with or without them, the accounts end the same. */
  lemma {:induction false} PaddedRuns(c: Chain, s: Store, long: seq<Move>, short: seq<Move>)
    requires PaddedMoves(c, s, long, short)
    ensures Run(c, s, long) == Run(c, s, short)
    decreases |long|
  {
    hide Next, Run, Idles;
    if long != short {
      assert long == [long[0]] + long[1..];
      RunAppend(c, s, [long[0]], long[1..]);
      RunOne(c, s, long[0]);
      if long[0].Submit? && Idles(s, long[0].signers, long[0].ix) && PaddedMoves(c, s, long[1..], short) {
        IdleMove(c, s, long[0]);
        PaddedRuns(c, s, long[1..], short);
      } else {
        assert short == [short[0]] + short[1..];
        RunAppend(c, s, [short[0]], short[1..]);
        PaddedRuns(c, Next(c, s, long[0]), long[1..], short[1..]);
      }
    }
  }

  lemma IdleMove(c: Chain, s: Store, m: Move)
    requires m.Submit? && Idles(s, m.signers, m.ix)
    ensures Next(c, s, m) == s
  {
    hide Handle, Idles;
    IdlesSucceed(c, s, m.signers, m.ix);
  }

  /** After a finalize that succeeded, another one idles. */
  lemma FinalizedIdles(c: Chain, s: Store, signers: set<Key>, v: Key, d: Key, t: Store)
    requires HandleFinalize(c, s, signers, v, d) == Ok(t)
    requires SessionOk(s, d) && !ProgramAddress(v)
    ensures Idles(t, signers, Finalize(v, d))
  {
    hide HandleFinalize, Total, Frame, Abs, SessionKeys, ProgramAddress, Delegatable, RecordOk, MetadataOk, PendingOk,
         Step;
    FinalizeGuarded(c, s, signers, v, d);
    if Fresh(s, CommitState(d)) {
      FinalizeSkipsPaired(c, s, signers, v, d, t);
    } else {
      FinalizeEffect(c, s, signers, v, d, t);
      StepStaysLive(Abs(s, d), Finalized);
      LiveRecord(t, d);
      SessionAddresses(d, v);
      KeptBy(s, t, SessionKeys(d), ValidatorVault(v)) by {
        VaultNotOfSession(d, v);
      }
      LiveOwned(t, d);
    }
  }

  lemma FinalizeGuarded(c: Chain, s: Store, signers: set<Key>, v: Key, d: Key)
    requires HandleFinalize(c, s, signers, v, d).Ok?
    ensures Guarded(s, signers, v, d)
  {
    hide ApplyCommit;
  }

  lemma VaultNotOfSession(d: Key, v: Key)
    requires Delegatable(d)
    ensures ValidatorVault(v) !in SessionKeys(d)
  {}

  lemma LiveOwned(s: Store, d: Key)
    requires SessionOk(s, d) && Abs(s, d).Live?
    ensures Owned(s, d) && Owned(s, Record(d)) && Owned(s, Metadata(d))
  {
    hide PendingOk, RecordOf, MetadataOf, CommitOf;
  }

  /** Finalizing twice is finalizing once, whatever comes before and after. */
  lemma FinalizeTwice(c: Chain, s: Store, signers: set<Key>, v: Key, d: Key, rest: seq<Instruction>)
    requires SessionOk(s, d) && !ProgramAddress(v)
    ensures var f := Finalize(v, d);
            Bundle(c, s, signers, [f, f] + rest) == Bundle(c, s, signers, [f] + rest)
  {
    hide HandleFinalize, SessionOk, Idles;
    var f := Finalize(v, d);
    var long, short := [f, f] + rest, [f] + rest;
    assert long[0] == f == short[0] && long[1..] == [f] + rest && short[1..] == rest;
    assert Handle(c, s, signers, f) == HandleFinalize(c, s, signers, v, d);
    if HandleFinalize(c, s, signers, v, d).Ok? {
      var t := HandleFinalize(c, s, signers, v, d).value;
      FinalizedIdles(c, s, signers, v, d, t);
      IdlesSucceed(c, t, signers, f);
      assert long[1..][1..] == rest;
    }
  }
}
