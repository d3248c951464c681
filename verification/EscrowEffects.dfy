/** Escrow accounts: topping up, delegating and closing them. */
module EscrowEffects {
  import opened Outcomes
  import opened Octets
  import opened Store
  import opened Handlers
  import opened Sessions
  import opened Invariants
  import opened SessionEffects

  /** Topping up brings the balance to the rent minimum if the account is not delegated, then adds the amount; what
      the escrow gains is exactly what the payer loses, and no session is touched. */
  lemma TopUpEffect(c: Chain, s: Store, signers: set<Key>, payer: Key, of: Key, index: byte, amount: u64, t: Store)
    requires HandleTopUpEscrow(c, s, signers, payer, of, index, amount) == Ok(t)
    requires !ProgramAddress(payer)
    ensures Total(t) == Total(s) && Frame(s, t, {})
    ensures var escrow := Escrow(of, index);
            var rent := if At(s, escrow).owner == System then Shortfall(Lamports(s, escrow), c.rent(0)) else 0;
            && Lamports(t, escrow) == Lamports(s, escrow) + rent + amount
            && Lamports(t, payer) == Lamports(s, payer) - (rent + amount)
            && At(t, escrow).owner == At(s, escrow).owner && At(t, escrow).data == At(s, escrow).data
    ensures forall k {:trigger At(t, k)} :: k != payer && k != Escrow(of, index) ==> At(t, k) == At(s, k)
  {
    hide Total, Frame, CreatePda, Transfer, Zeroes;
    var escrow := Escrow(of, index);
    assert ProgramAddress(escrow);
    FrameSame(s, {});
    var s1 := if At(s, escrow).owner == System then CreatePda(c.rent, s, escrow, System, 0, payer).value else s;
    if At(s, escrow).owner == System {
      CreatePdaEffect(c.rent, s, escrow, System, 0, payer, s1);
      assert At(s1, escrow).data == [];
      EmptyCreated(s, s1, escrow);
    }
    if amount > 0 {
      TransferEffect(s1, payer, escrow, amount, t);
      FrameThen(s, s1, t, {});
    }
  }

  lemma EmptyCreated(s: Store, t: Store, escrow: Key)
    requires Frame(s, t, {escrow}) && Kept(At(s, escrow), At(t, escrow))
    ensures Frame(s, t, {})
  {}

  /** Delegating an escrow opens a session on it, owned by the system program. */
  lemma DelegateEscrowEffect(c: Chain, s: Store, signers: set<Key>, payer: Key, of: Key, index: byte,
                             args: DelegateArgs, t: Store)
    requires HandleDelegateEscrow(c, s, signers, payer, of, index, args) == Ok(t)
    requires var d := Escrow(of, index); SessionOk(s, d) && !ProgramAddress(payer)
    ensures var d := Escrow(of, index);
            && Total(t) == Total(s) && Frame(s, t, SessionKeys(d))
            && Abs(s, d) == Idle && SessionOk(t, d)
            && Lamports(t, d) == Lamports(s, d)
            && Abs(t, d)
                == Live(System, payer, EscrowSeeds(of, index), 0, false, Lamports(s, d), 0, At(t, d).data, None)
            && var staged := At(s, DelegateBuffer(d, System)).data;
               At(t, d).data == if staged == [] then At(s, d).data else staged
  {
    hide HandleDelegate, DelegateBuffer, Total, Frame, EscrowSeeds, SessionKeys, RecordOk, MetadataOk, PendingOk;
    var d := Escrow(of, index);
    var s1 := AssignToDlp(s, d).value;
    assert Delegatable(d);
    assert DelegateBuffer(d, System).Derived? by { StagingIsDerived(d, System); }
    FrameSame(s, SessionKeys(d));
    if s1 != s {
      RewriteEffect(s, d, At(s1, d));
      FrameOne(s, s1, d, d);
      assert SessionOk(s1, d);
    }
    DelegateEffect(c, s1, signers + {d}, payer, d, System, args.(seeds := EscrowSeeds(of, index)), t);
    FrameThen(s, s1, t, SessionKeys(d));
  }

  /** Closing pays the whole balance to the payer; it needs an escrow that is not delegated. */
  lemma CloseEscrowEffect(c: Chain, s: Store, signers: set<Key>, payer: Key, index: byte, t: Store)
    requires HandleCloseEscrow(c, s, signers, payer, index) == Ok(t)
    requires !ProgramAddress(payer)
    ensures var escrow := Escrow(payer, index);
            && Total(t) == Total(s) && Frame(s, t, {escrow})
            && At(s, escrow).owner == System
            && Lamports(t, escrow) == 0
            && Lamports(t, payer) == Lamports(s, payer) + Lamports(s, escrow)
    ensures forall k {:trigger At(t, k)} :: k != payer && k != Escrow(payer, index) ==> At(t, k) == At(s, k)
  {
    hide Total;
    var escrow := Escrow(payer, index);
    assert ProgramAddress(escrow);
    if Lamports(s, escrow) > 0 {
      TransferEffect(s, escrow, payer, Lamports(s, escrow), t);
    }
  }
}
