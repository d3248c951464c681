/** The account store, the system program's operations on it, and the four account helpers built on them. */
module Store {
  import opened Outcomes
  import opened Octets

  datatype Account = Account(owner: Key, lamports: u64, data: Bytes)

  /** An address nobody has written to holds the empty account. */
  const EMPTY: Account := Account(System, 0, [])

  type Store = map<Key, Account>

  function At(s: Store, k: Key): Account {
    if k in s then s[k] else EMPTY
  }

  function Lamports(s: Store, k: Key): u64 {
    At(s, k).lamports
  }

  /** Uninitialized: owned by the system program and without data. Lamports may be there already. */
  predicate Fresh(s: Store, k: Key) {
    At(s, k).owner == System && At(s, k).data == []
  }

  predicate Owned(s: Store, k: Key) {
    At(s, k).owner == Dlp
  }

  /** The account is exactly as described. */
  predicate Holds(a: Account, owner: Key, lamports: int, data: Bytes) {
    a.owner == owner && a.lamports == lamports && a.data == data
  }

  // ---- The sum of all lamports ----

  ghost function Total(s: Store): nat
    decreases |s|
  {
    if s == map[] then 0
    else
      var k :| k in s;
      s[k].lamports + Total(s - {k})
  }

  lemma {:induction false} TotalWithout(s: Store, k: Key)
    requires k in s
    ensures Total(s) == s[k].lamports + Total(s - {k})
    decreases |s|
  {
    var j :| j in s && Total(s) == s[j].lamports + Total(s - {j});
    if j != k {
      TotalWithout(s - {j}, k);
      TotalWithout(s - {k}, j);
      assert s - {j} - {k} == s - {k} - {j};
    }
  }

  /** Writing one account moves the total by the change of that account. */
  lemma TotalUpdate(s: Store, k: Key, a: Account)
    ensures Total(s[k := a]) == Total(s) - Lamports(s, k) + a.lamports
  {
    TotalWithout(s[k := a], k);
    if k in s {
      TotalWithout(s, k);
      assert s[k := a] - {k} == s - {k};
    } else {
      assert s[k := a] - {k} == s;
    }
  }

  lemma TotalCovers(s: Store, k: Key)
    ensures Lamports(s, k) <= Total(s)
  {
    if k in s {
      TotalWithout(s, k);
    }
  }

  lemma TotalCoversTwo(s: Store, j: Key, k: Key)
    requires j != k
    ensures Lamports(s, j) + Lamports(s, k) <= Total(s)
  {
    if j in s {
      TotalWithout(s, j);
      TotalCovers(s - {j}, k);
    } else {
      TotalCovers(s, k);
    }
  }

  // ---- What nobody but the program can do ----

  /** Accounts the delegation program owns, and addresses only it can sign for. */
  predicate Protected(s: Store, k: Key) {
    Owned(s, k) || ProgramAddress(k)
  }

  /** From s to t, every protected account outside `except` keeps its owner and data and loses no lamports. */
  ghost predicate Frame(s: Store, t: Store, except: set<Key>) {
    forall k {:trigger At(t, k)} :: k !in except && Protected(s, k) ==> Kept(At(s, k), At(t, k))
  }

  predicate Kept(a: Account, b: Account) {
    b.owner == a.owner && b.data == a.data && a.lamports <= b.lamports
  }

  lemma KeptBy(s: Store, t: Store, except: set<Key>, k: Key)
    requires Frame(s, t, except) && k !in except && Protected(s, k)
    ensures Kept(At(s, k), At(t, k))
  {}

  lemma FrameSame(s: Store, except: set<Key>)
    ensures Frame(s, s, except)
  {}

  /** Frames compose, and may be widened. */
  lemma FrameThen(s: Store, t: Store, u: Store, except: set<Key>)
    requires Frame(s, t, except) && Frame(t, u, except)
    ensures Frame(s, u, except)
  {
    forall k | k !in except && Protected(s, k) ensures Kept(At(s, k), At(u, k)) {
      assert Kept(At(s, k), At(t, k));
    }
  }

  lemma FrameWiden(s: Store, t: Store, few: set<Key>, many: set<Key>)
    requires Frame(s, t, few) && few <= many
    ensures Frame(s, t, many)
  {}

  // ---- The system program ----

  /** A checked addition to one balance. */
  function Credit(s: Store, k: Key, amount: u64): Result<Store> {
    var a := At(s, k);
    if a.lamports + amount < U64_LIMIT then Ok(s[k := a.(lamports := a.lamports + amount)]) else Err(Overflow)
  }

  /** A system transfer: the source must have no data, hold the amount, and, if anything moves, belong to the
      system program. */
  function Transfer(s: Store, from: Key, to: Key, amount: u64): Result<Store> {
    var a := At(s, from);
    :- Need(a.data == [], InvalidArgument);
    :- Need(amount <= a.lamports, InsufficientFunds);
    :- Need(amount > 0 ==> a.owner == System, ExternalLamportSpend);
    Credit(s[from := a.(lamports := a.lamports - amount)], to, amount)
  }

  /** Fresh data is zeroed. */
  function Zeroes(n: nat): (r: Bytes)
    ensures |r| == n
  {
    seq(n, i => B(0))
  }

  /** Allocating needs an account that is not in use; assigning follows it. */
  function AllocateAndAssign(s: Store, k: Key, space: nat, owner: Key): Result<Store> {
    var lamports := Lamports(s, k);
    :- Need(Fresh(s, k), AccountAlreadyInitialized);
    Ok(s[k := Account(owner, lamports, Zeroes(space))])
  }

  function SetData(s: Store, k: Key, data: Bytes): Store {
    s[k := At(s, k).(data := data)]
  }

  /** What a payer adds so that a balance reaches the rent minimum. */
  function Shortfall(lamports: u64, minimum: u64): u64 {
    if lamports < minimum then minimum - lamports else 0
  }

  function AtLeast(lamports: nat, minimum: nat): nat {
    if lamports < minimum then minimum else lamports
  }

  lemma ShortfallFills(lamports: u64, minimum: u64)
    ensures lamports + Shortfall(lamports, minimum) == AtLeast(lamports, minimum)
  {}

  /** Creates an account the program can sign for. An empty balance takes the create instruction; otherwise the
      missing rent is transferred, if any, before the account is allocated and assigned. */
  function CreatePda(rent: nat -> u64, s: Store, target: Key, owner: Key, space: nat, payer: Key): Result<Store> {
    if Lamports(s, target) == 0 then
      var s1 :- AllocateAndAssign(s, target, space, owner);
      Transfer(s1, payer, target, rent(space))
    else
      var missing := Shortfall(Lamports(s, target), rent(space));
      var s1 :- if missing > 0 then Transfer(s, payer, target, missing) else Ok(s);
      AllocateAndAssign(s1, target, space, owner)
  }

  /** Reallocation keeps a prefix; what a longer account gains is whatever the memory held. */
  function Realloc(data: Bytes, size: nat, stale: Bytes): (d: Bytes)
    ensures |d| == size
  {
    if size <= |data| then data[..size]
    else data + seq(size - |data|, i requires 0 <= i => if i < |stale| then stale[i] else B(0))
  }

  /** Tops the balance up to the rent minimum of the new size, then reallocates. */
  function ResizePda(rent: nat -> u64, s: Store, payer: Key, pda: Key, size: nat, stale: Bytes): Result<Store> {
    var s1 :- Transfer(s, payer, pda, Shortfall(Lamports(s, pda), rent(size)));
    Ok(s1[pda := At(s1, pda).(data := Realloc(At(s1, pda).data, size, stale))])
  }

  /** Gives the whole balance to the destination and hands the account back to the system program. The two
      writes are in the order of the code: an account closed to itself ends with nothing. */
  function ClosePda(s: Store, target: Key, destination: Key): Result<Store> {
    var d := At(s, destination);
    :- Need(d.lamports + Lamports(s, target) < U64_LIMIT, Panic);
    var s1 := s[destination := d.(lamports := d.lamports + Lamports(s, target))];
    Ok(s1[target := EMPTY])
  }

  // ---- Effects and conservation of each operation ----

  lemma CreditEffect(s: Store, k: Key, amount: u64, t: Store)
    requires Credit(s, k, amount) == Ok(t)
    ensures Total(t) == Total(s) + amount
    ensures Frame(s, t, {})
  {
    TotalUpdate(s, k, At(t, k));
  }

  /** What a transfer writes. */
  lemma TransferWrites(s: Store, from: Key, to: Key, amount: u64, t: Store)
    requires Transfer(s, from, to, amount) == Ok(t)
    ensures amount <= Lamports(s, from)
    ensures amount > 0 ==> At(s, from).owner == System
    ensures var s1 := s[from := At(s, from).(lamports := Lamports(s, from) - amount)];
            Credit(s1, to, amount) == Ok(t)
            && Holds(At(s1, from), At(s, from).owner, Lamports(s, from) - amount, At(s, from).data)
            && forall k {:trigger At(s1, k)} :: k != from ==> At(s1, k) == At(s, k)
  {
    hide Credit;
  }

  lemma CreditWrites(s: Store, k: Key, amount: u64, t: Store)
    requires Credit(s, k, amount) == Ok(t)
    ensures Holds(At(t, k), At(s, k).owner, Lamports(s, k) + amount, At(s, k).data)
    ensures forall j {:trigger At(t, j)} :: j != k ==> At(t, j) == At(s, j)
  {}

  /** A transfer that succeeds conserves the total; nobody can make a protected account pay. */
  lemma TransferEffect(s: Store, from: Key, to: Key, amount: u64, t: Store)
    requires Transfer(s, from, to, amount) == Ok(t)
    ensures Total(t) == Total(s)
    ensures !ProgramAddress(from) ==> Frame(s, t, {})
    ensures forall k {:trigger At(t, k)} :: k != from && k != to ==> At(t, k) == At(s, k)
    ensures At(t, to) == At(s, to).(lamports := if from == to then Lamports(s, to) else Lamports(s, to) + amount)
    ensures from != to ==> At(t, from) == At(s, from).(lamports := Lamports(s, from) - amount)
    ensures amount <= Lamports(s, from)
  {
    hide Total, Transfer, Credit, Frame, ProgramAddress;
    TransferWrites(s, from, to, amount, t);
    var s1 := s[from := At(s, from).(lamports := Lamports(s, from) - amount)];
    TotalUpdate(s, from, At(s1, from));
    CreditWrites(s1, to, amount, t);
    CreditEffect(s1, to, amount, t);
    if from == to {
      assert At(t, to) == At(s, to);
    }
    if !ProgramAddress(from) {
      PlainPays(s, s1, from);
      FrameThen(s, s1, t, {});
    }
  }

  lemma PlainPays(s: Store, t: Store, from: Key)
    requires !ProgramAddress(from)
    requires forall k {:trigger At(t, k)} :: k != from ==> At(t, k) == At(s, k)
    requires At(s, from).owner == System || At(t, from) == At(s, from)
    ensures Frame(s, t, {})
  {
    hide ProgramAddress;
  }

  /** The two ways of creating: allocate and pay the whole rent, or pay what is missing, if anything, and allocate. */
  lemma CreatePdaStages(rent: nat -> u64, s: Store, target: Key, owner: Key, space: nat, payer: Key, t: Store)
    returns (s1: Store, missing: u64)
    requires CreatePda(rent, s, target, owner, space, payer) == Ok(t)
    ensures missing == Shortfall(Lamports(s, target), rent(space))
    ensures if Lamports(s, target) == 0
            then AllocateAndAssign(s, target, space, owner) == Ok(s1) && Transfer(s1, payer, target, missing) == Ok(t)
            else (if missing > 0 then Transfer(s, payer, target, missing) == Ok(s1) else s1 == s)
                 && AllocateAndAssign(s1, target, space, owner) == Ok(t)
  {
    hide Transfer, AllocateAndAssign;
    missing := Shortfall(Lamports(s, target), rent(space));
    if Lamports(s, target) == 0 {
      s1 := AllocateAndAssign(s, target, space, owner).value;
    } else {
      s1 := if missing > 0 then Transfer(s, payer, target, missing).value else s;
    }
  }

  lemma AllocateEffect(s: Store, k: Key, space: nat, owner: Key, t: Store)
    requires AllocateAndAssign(s, k, space, owner) == Ok(t)
    ensures Fresh(s, k) && At(t, k) == Account(owner, Lamports(s, k), Zeroes(space))
    ensures Total(t) == Total(s) && Frame(s, t, {k})
    ensures forall j {:trigger At(t, j)} :: j != k ==> At(t, j) == At(s, j)
  {
    hide Total, Zeroes;
    TotalUpdate(s, k, At(t, k));
  }

  /** Both ways of creating leave the account with max(previous balance, rent minimum), the payer short of
      exactly the difference, and everything else as it was. */
  lemma CreatePdaEffect(rent: nat -> u64, s: Store, target: Key, owner: Key, space: nat, payer: Key, t: Store)
    requires CreatePda(rent, s, target, owner, space, payer) == Ok(t)
    requires target != payer
    ensures Total(t) == Total(s)
    ensures !ProgramAddress(payer) ==> Frame(s, t, {target})
    ensures forall k {:trigger At(t, k)} :: k != target && k != payer ==> At(t, k) == At(s, k)
    ensures Fresh(s, target)
    ensures At(t, target) ==
            Account(owner, if Lamports(s, target) < rent(space) then rent(space) else Lamports(s, target),
                    Zeroes(space))
    ensures var missing := Shortfall(Lamports(s, target), rent(space));
            missing <= Lamports(s, payer) && At(t, payer) == At(s, payer).(lamports := Lamports(s, payer) - missing)
  {
    hide Total, Zeroes, Frame, CreatePda, AllocateAndAssign, Transfer, ProgramAddress;
    CreatePdaFrame(rent, s, target, owner, space, payer, t);
    var s1, missing := CreatePdaStages(rent, s, target, owner, space, payer, t);
    if Lamports(s, target) == 0 {
      AllocateEffect(s, target, space, owner, s1);
      assert At(s1, payer) == At(s, payer);
      TransferEffect(s1, payer, target, missing, t);
    } else {
      ToppedUp(s, target, payer, missing, s1);
      AllocateEffect(s1, target, space, owner, t);
      assert At(t, payer) == At(s1, payer);
    }
  }

  lemma ToppedUp(s: Store, target: Key, payer: Key, missing: u64, t: Store)
    requires (if missing > 0 then Transfer(s, payer, target, missing) == Ok(t) else t == s) && target != payer
    ensures At(t, target) == At(s, target).(lamports := Lamports(s, target) + missing)
    ensures missing <= Lamports(s, payer) && At(t, payer) == At(s, payer).(lamports := Lamports(s, payer) - missing)
    ensures forall k {:trigger At(t, k)} :: k != target && k != payer ==> At(t, k) == At(s, k)
  {
    hide Total, Frame, Transfer, ProgramAddress;
    if missing > 0 {
      TransferEffect(s, payer, target, missing, t);
    }
  }

  lemma CreatePdaFrame(rent: nat -> u64, s: Store, target: Key, owner: Key, space: nat, payer: Key, t: Store)
    requires CreatePda(rent, s, target, owner, space, payer) == Ok(t)
    ensures Total(t) == Total(s)
    ensures !ProgramAddress(payer) ==> Frame(s, t, {target})
  {
    hide Total, Zeroes, Frame, CreatePda, AllocateAndAssign, Transfer, ProgramAddress, Fresh;
    var s1, missing := CreatePdaStages(rent, s, target, owner, space, payer, t);
    FrameSame(s, {target});
    if Lamports(s, target) == 0 {
      AllocateEffect(s, target, space, owner, s1);
      TransferEffect(s1, payer, target, missing, t);
      if !ProgramAddress(payer) {
        FrameWiden(s1, t, {}, {target});
        FrameThen(s, s1, t, {target});
      }
    } else {
      if missing > 0 {
        TransferEffect(s, payer, target, missing, s1);
        if !ProgramAddress(payer) {
          FrameWiden(s, s1, {}, {target});
        }
      }
      AllocateEffect(s1, target, space, owner, t);
      if !ProgramAddress(payer) {
        FrameThen(s, s1, t, {target});
      }
    }
  }

  lemma OwnedTransfersNothing(s: Store, from: Key, to: Key, amount: u64, t: Store, k: Key)
    requires Transfer(s, from, to, amount) == Ok(t) && Owned(s, k) && k != to
    ensures At(t, k) == At(s, k)
  {
    hide Transfer, Credit;
    TransferWrites(s, from, to, amount, t);
    var s1 := s[from := At(s, from).(lamports := Lamports(s, from) - amount)];
    CreditWrites(s1, to, amount, t);
  }

  /** An account of the program pays for nothing, not even as the payer. */
  lemma OwnedNeverPays(rent: nat -> u64, s: Store, target: Key, owner: Key, space: nat, payer: Key, t: Store, k: Key)
    requires CreatePda(rent, s, target, owner, space, payer) == Ok(t)
    requires Owned(s, k) && k != target
    ensures At(t, k) == At(s, k)
  {
    hide CreatePda, AllocateAndAssign, Transfer, Zeroes, Total, Frame;
    var s1, missing := CreatePdaStages(rent, s, target, owner, space, payer, t);
    if Lamports(s, target) == 0 {
      AllocateEffect(s, target, space, owner, s1);
      OwnedTransfersNothing(s1, payer, target, missing, t, k);
    } else {
      if missing > 0 {
        OwnedTransfersNothing(s, payer, target, missing, s1, k);
      }
      AllocateEffect(s1, target, space, owner, t);
    }
  }

  /** Creating an account and writing its data: the account is as described, only the payer and it have changed. */
  lemma CreatedAndWritten(rent: nat -> u64, s: Store, target: Key, owner: Key, space: nat, payer: Key, t: Store,
                          data: Bytes)
    requires CreatePda(rent, s, target, owner, space, payer) == Ok(t)
    requires target != payer && !ProgramAddress(payer)
    ensures var u := SetData(t, target, data);
            && Total(u) == Total(s)
            && Frame(s, u, {target})
            && Fresh(s, target)
            && At(u, target) ==
               Account(owner, if Lamports(s, target) < rent(space) then rent(space) else Lamports(s, target), data)
            && (forall k {:trigger At(u, k)} :: k != target && k != payer ==> At(u, k) == At(s, k))
            && var missing := Shortfall(Lamports(s, target), rent(space));
               missing <= Lamports(s, payer) && At(u, payer) == At(s, payer).(lamports := Lamports(s, payer) - missing)
  {
    hide Total, Zeroes, Frame, CreatePda;
    var u := SetData(t, target, data);
    CreatePdaEffect(rent, s, target, owner, space, payer, t);
    RewriteEffect(t, target, At(u, target));
    FrameThen(s, t, u, {target});
    forall k | k != target && k != payer ensures At(u, k) == At(s, k) {
      assert At(u, k) == At(t, k);
    }
  }

  lemma ResizePdaEffect(rent: nat -> u64, s: Store, payer: Key, pda: Key, size: nat, stale: Bytes, t: Store)
    requires ResizePda(rent, s, payer, pda, size, stale) == Ok(t)
    requires pda != payer
    ensures Total(t) == Total(s)
    ensures !ProgramAddress(payer) ==> Frame(s, t, {pda})
    ensures At(t, pda).owner == At(s, pda).owner && |At(t, pda).data| == size
    ensures Lamports(t, pda) == if Lamports(s, pda) < rent(size) then rent(size) else Lamports(s, pda)
    ensures Lamports(s, payer) - Lamports(t, payer) == Lamports(t, pda) - Lamports(s, pda)
    ensures forall k {:trigger At(t, k)} :: k != pda && k != payer ==> At(t, k) == At(s, k)
  {
    hide Total, Transfer, Frame, ProgramAddress, Realloc;
    var amount := Shortfall(Lamports(s, pda), rent(size));
    var s1 := Transfer(s, payer, pda, amount).value;
    TransferEffect(s, payer, pda, amount, s1);
    assert At(t, payer) == At(s1, payer);
    forall k | k != pda && k != payer ensures At(t, k) == At(s, k) {
      assert At(s1, k) == At(s, k);
    }
    RewriteEffect(s1, pda, At(t, pda));
    if !ProgramAddress(payer) {
      FrameWiden(s, s1, {}, {pda});
      FrameThen(s, s1, t, {pda});
    }
  }

  /** Closing to another account moves the whole balance; closing to itself destroys it. */
  lemma ClosePdaEffect(s: Store, target: Key, destination: Key, t: Store)
    requires ClosePda(s, target, destination) == Ok(t)
    ensures Total(t) == if target == destination then Total(s) - Lamports(s, target) else Total(s)
    ensures Frame(s, t, {target})
    ensures At(t, target) == EMPTY
    ensures target != destination ==>
              At(t, destination) == At(s, destination).(lamports := Lamports(s, destination) + Lamports(s, target))
    ensures forall k {:trigger At(t, k)} :: k != target && k != destination ==> At(t, k) == At(s, k)
  {
    hide Total;
    var d := At(s, destination);
    var a := d.(lamports := d.lamports + Lamports(s, target));
    TotalUpdate(s, destination, a);
    TotalUpdate(s[destination := a], target, EMPTY);
  }

  /** A write that leaves the balance alone. */
  lemma RewriteEffect(s: Store, k: Key, a: Account)
    requires a.lamports == Lamports(s, k)
    ensures Total(s[k := a]) == Total(s)
    ensures Frame(s, s[k := a], {k})
  {
    TotalUpdate(s, k, a);
  }
}
