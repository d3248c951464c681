/** The delegation session of one account, without accounts or bytes: what may happen in which order. */
module Sessions {
  import opened Outcomes
  import opened Octets

  datatype Pending = Pending(identity: Key, slot: nat, lamports: nat, bytes: Bytes)

  /** A live session: who gets the account back, the slot of the last finalized commit, whether a commit allowed
      undelegation, the recorded balance, what arrived on top of it, the current data, and the commit that
      waits to be finalized. */
  datatype Session =
    | Idle
    | Live(owner: Key, rentPayer: Key, seeds: seq<Bytes>,
           slot: nat, flag: bool, recorded: nat, surplus: nat, data: Bytes, pending: Option<Pending>)

  datatype Event =
    | Delegated(owner: Key, rentPayer: Key, seeds: seq<Bytes>, initial: nat, data: Bytes)
    | Committed(identity: Key, slot: nat, lamports: nat, allow: bool, bytes: Bytes)
    | Finalized
    | Undelegated(bytes: Bytes)
    | Deposited(amount: nat)

  /** The transition an event makes, or None where it is not allowed. */
  function Step(x: Session, e: Event): Option<Session> {
    match e
    case Delegated(owner, rentPayer, seeds, initial, data) =>
      if x.Idle? then Some(Live(owner, rentPayer, seeds, 0, false, initial, 0, data, None)) else None
    case Committed(identity, slot, lamports, allow, bytes) =>
      if x.Live? && x.pending.None? && !x.flag && x.slot <= slot
      then Some(x.(flag := allow, pending := Some(Pending(identity, slot, lamports, bytes)))) else None
    case Finalized =>
      if x.Live? && x.pending.Some?
      then Some(x.(slot := x.pending.value.slot, recorded := x.pending.value.lamports + x.surplus, surplus := 0,
                   data := x.pending.value.bytes, pending := None)) else None
    case Undelegated(bytes) =>
      if x.Live? && x.pending.None? && x.flag && x.data == bytes then Some(Idle) else None
    case Deposited(amount) =>
      if x.Live? then Some(x.(surplus := x.surplus + amount)) else None
  }

  function Replay(es: seq<Event>): Option<Session> {
    if es == [] then Some(Idle)
    else match Replay(es[..|es| - 1])
         case None => None
         case Some(x) => Step(x, es[|es| - 1])
  }

  /** The events since the session began, deposits left out. */
  function Current(es: seq<Event>): seq<Event> {
    if es == [] then []
    else
      var front, last := es[..|es| - 1], es[|es| - 1];
      match last
      case Delegated(_, _, _, _, _) => [last]
      case Deposited(_) => Current(front)
      case _ => Current(front) + [last]
  }

  /** Commits that were each finalized before the next one. */
  function Rounds(commits: seq<Event>): seq<Event> {
    if commits == [] then []
    else Rounds(commits[..|commits| - 1]) + [commits[|commits| - 1], Finalized]
  }

  /** Commits in order: slots never decrease, and only the last one may allow undelegation. */
  ghost predicate Ordered(commits: seq<Event>) {
    && (forall i :: 0 <= i < |commits| ==> commits[i].Committed?)
    && (forall i, j :: 0 <= i < j < |commits| ==> commits[i].slot <= commits[j].slot && !commits[i].allow)
  }

  /** The shape of a live session: opened once, finalized commits, and perhaps one that is pending. */
  ghost predicate Shape(x: Session, current: seq<Event>, opening: Event, commits: seq<Event>)
    requires x.Live?
  {
    && opening.Delegated?
    && opening.owner == x.owner && opening.rentPayer == x.rentPayer && opening.seeds == x.seeds
    && Ordered(commits)
    && match x.pending
       case None =>
         && current == [opening] + Rounds(commits)
         && (if commits == [] then x.slot == 0 && !x.flag && x.data == opening.data
             else var last := commits[|commits| - 1];
                  x.slot == last.slot && x.flag == last.allow && x.data == last.bytes)
       case Some(p) =>
         && commits != []
         && var last := commits[|commits| - 1];
            && current == [opening] + Rounds(commits[..|commits| - 1]) + [last]
            && last == Committed(p.identity, p.slot, p.lamports, x.flag, p.bytes)
            && x.slot == (if |commits| == 1 then 0 else commits[|commits| - 2].slot)
  }

  lemma ShapeCommitted(x: Session, current: seq<Event>, opening: Event, commits: seq<Event>, e: Event)
    requires x.Live? && Shape(x, current, opening, commits)
    requires e.Committed? && Step(x, e).Some?
    ensures Shape(Step(x, e).value, current + [e], opening, commits + [e])
  {
    hide Ordered;
    var commits' := commits + [e];
    assert commits'[..|commits|] == commits;
    OrderedMore(x, commits, e);
  }

  lemma ShapeFinalized(x: Session, current: seq<Event>, opening: Event, commits: seq<Event>, e: Event)
    requires x.Live? && Shape(x, current, opening, commits)
    requires e.Finalized? && Step(x, e).Some?
    ensures Shape(Step(x, e).value, current + [e], opening, commits)
  {
    hide Ordered;
    var n := |commits| - 1;
    assert Rounds(commits) == Rounds(commits[..n]) + [commits[n], Finalized];
    assert [opening] + Rounds(commits[..n]) + [commits[n]] + [Finalized] == [opening] + Rounds(commits);
  }

  lemma ShapeDeposited(x: Session, current: seq<Event>, opening: Event, commits: seq<Event>, e: Event)
    requires x.Live? && Shape(x, current, opening, commits)
    requires e.Deposited? && Step(x, e).Some?
    ensures Shape(Step(x, e).value, current, opening, commits)
  {
    hide Ordered, Rounds;
  }

  /** One event keeps the shape of a live session, the commits growing by an accepted one. */
  lemma ShapeStep(x: Session, current: seq<Event>, opening: Event, commits: seq<Event>, e: Event)
    requires x.Live? && Shape(x, current, opening, commits)
    requires Step(x, e).Some? && Step(x, e).value.Live?
    ensures var current', commits' := if e.Deposited? then current else current + [e],
                                      if e.Committed? then commits + [e] else commits;
            Shape(Step(x, e).value, current', opening, commits')
  {
    hide Shape, Rounds, Ordered;
    if e.Committed? {
      ShapeCommitted(x, current, opening, commits, e);
    } else if e.Finalized? {
      ShapeFinalized(x, current, opening, commits, e);
    } else {
      ShapeDeposited(x, current, opening, commits, e);
    }
  }

  lemma OrderedMore(x: Session, commits: seq<Event>, e: Event)
    requires Ordered(commits) && e.Committed?
    requires commits != [] ==> commits[|commits| - 1].slot <= e.slot && !commits[|commits| - 1].allow
    ensures Ordered(commits + [e])
  {}

  lemma {:induction false} LiveShape(es: seq<Event>) returns (opening: Event, commits: seq<Event>)
    requires Replay(es).Some? && Replay(es).value.Live?
    ensures Shape(Replay(es).value, Current(es), opening, commits)
  {
    hide Shape, Ordered;
    var front, last := es[..|es| - 1], es[|es| - 1];
    if last.Delegated? {
      opening, commits := last, [];
      Opened(Replay(es).value, opening);
    } else {
      opening, commits := LiveShape(front);
      ShapeStep(Replay(front).value, Current(front), opening, commits, last);
      if last.Committed? {
        commits := commits + [last];
      }
    }
  }

  lemma Opened(x: Session, e: Event)
    requires e.Delegated? && Step(Idle, e) == Some(x)
    ensures Shape(x, [e], e, [])
  {
    assert [e] + Rounds([]) == [e];
  }

  /** The history of every completed session, read off its events: it was opened by one delegation; then came at
      least one commit, each finalized before the next, with slots that never decrease; only the last commit
      allowed undelegation, it was finalized, and its bytes are exactly the bytes handed back. */
  lemma CompletedSession(es: seq<Event>) returns (opening: Event, commits: seq<Event>)
    requires Replay(es).Some? && es != [] && es[|es| - 1].Undelegated?
    ensures opening.Delegated? && commits != [] && Ordered(commits)
    ensures Current(es) == [opening] + Rounds(commits) + [es[|es| - 1]]
    ensures commits[|commits| - 1].allow && commits[|commits| - 1].bytes == es[|es| - 1].bytes
  {
    opening, commits := LiveShape(es[..|es| - 1]);
  }

  /** A pending commit is never older than the last finalized one. */
  predicate Sane(x: Session) {
    x.Live? && x.pending.Some? ==> x.slot <= x.pending.value.slot
  }

  /** What a session keeps from x to y: finalized slots never decrease, a flag that is set stays set, and nobody changes
      who the account, the seeds and the rent belong to. */
  predicate Continues(x: Session, y: Session)
    requires x.Live?
  {
    && y.Live? && Sane(y)
    && x.slot <= y.slot && (x.flag ==> y.flag)
    && y.owner == x.owner && y.rentPayer == x.rentPayer && y.seeds == x.seeds
  }

  lemma OnwardOne(x: Session, e: Event)
    requires Step(x, e).Some? && x.Live? && Sane(x) && !e.Undelegated?
    ensures Continues(x, Step(x, e).value) && (x.flag ==> !e.Committed?)
  {}

  /** As long as a session is not ended it continues, and once undelegation is allowed no further commit is accepted. */
  lemma {:induction false} Onward(x: Session, es: seq<Event>)
    requires ReplayFrom(x, es).Some? && x.Live? && Sane(x)
    requires forall e :: e in es ==> !e.Undelegated?
    ensures Continues(x, ReplayFrom(x, es).value)
    ensures x.flag ==> forall e :: e in es ==> !e.Committed?
  {
    hide Step;
    if es != [] {
      var front, last := es[..|es| - 1], es[|es| - 1];
      assert es == front + [last];
      Onward(x, front);
      OnwardOne(ReplayFrom(x, front).value, last);
    }
  }

  // ---- What a session comes to ----

  /** The bytes and the balance the account will come back with, if nothing else is committed. */
  function Outcome(x: Session): (Bytes, nat)
    requires x.Live?
  {
    match x.pending
    case None => (x.data, x.recorded + x.surplus)
    case Some(p) => (p.bytes, p.lamports + x.surplus)
  }

  /** Once undelegation is allowed the bytes to come back with are settled, and so is where to. */
  lemma SettledOne(x: Session, e: Event)
    requires Step(x, e).Some? && x.Live? && x.flag && !e.Undelegated?
    ensures var y := Step(x, e).value;
            y.Live? && y.flag && y.owner == x.owner && Outcome(y).0 == Outcome(x).0
  {}

  lemma {:induction false} Settled(x: Session, es: seq<Event>)
    requires ReplayFrom(x, es).Some? && x.Live? && x.flag
    requires forall e :: e in es ==> !e.Undelegated?
    ensures var y := ReplayFrom(x, es).value;
            y.Live? && y.flag && y.owner == x.owner && Outcome(y).0 == Outcome(x).0
  {
    hide Step, Outcome;
    if es != [] {
      var front, last := es[..|es| - 1], es[|es| - 1];
      assert es == front + [last];
      Settled(x, front);
      SettledOne(ReplayFrom(x, front).value, last);
    }
  }

  // ---- The ledger of a session ----

  /** Where the balance of the account came from since the session began. */
  datatype Ledger = Ledger(initial: nat, deposits: nat, funded: nat, released: nat)

  /** Deposits count as they arrive; a finalized commit counts as funded out of the validator's collateral
      or as released into its vault, by how its lamports compare with the recorded balance. */
  function LedgerOf(es: seq<Event>): Ledger {
    if es == [] then Ledger(0, 0, 0, 0)
    else
      var front, last := es[..|es| - 1], es[|es| - 1];
      var l := LedgerOf(front);
      match last
      case Delegated(_, _, _, initial, _) => Ledger(initial, 0, 0, 0)
      case Deposited(amount) => l.(deposits := l.deposits + amount)
      case Finalized =>
        (match Replay(front)
         case Some(Live(_, _, _, _, _, recorded, _, _, Some(p))) =>
           if recorded <= p.lamports then l.(funded := l.funded + (p.lamports - recorded))
           else l.(released := l.released + (recorded - p.lamports))
         case _ => l)
      case _ => l
  }

  /** The part of one balance above another. */
  function Above(a: nat, b: nat): nat {
    if a > b then a - b else 0
  }

  /** What one more event adds to the ledger. */
  lemma LedgerMore(es: seq<Event>, e: Event)
    ensures var l, m := LedgerOf(es), LedgerOf(es + [e]);
            && (e.Delegated? ==> m == Ledger(e.initial, 0, 0, 0))
            && (e.Deposited? || e.Committed? || e.Undelegated? ==> m.released == l.released && m.funded == l.funded)
            && (e.Finalized? && Replay(es).Some? && Replay(es).value.Live? && Replay(es).value.pending.Some? ==>
                  var x, p := Replay(es).value, Replay(es).value.pending.value;
                  m.released == l.released + Above(x.recorded, p.lamports)
                      && m.funded == l.funded + Above(p.lamports, x.recorded))
  {
    assert (es + [e])[..|es|] == es;
  }

  /** Deposits since the session began or since the last finalized commit. */
  function RecentDeposits(es: seq<Event>): nat {
    if es == [] then 0
    else match es[|es| - 1]
         case Delegated(_, _, _, _, _) => 0
         case Finalized => 0
         case Deposited(amount) => RecentDeposits(es[..|es| - 1]) + amount
         case _ => RecentDeposits(es[..|es| - 1])
  }

  /** Over any number of rounds: what a live account holds is what it started with, plus every deposit, plus what
      validators put in, less what went to their vaults. */
  lemma {:induction false} SessionLedger(es: seq<Event>)
    requires Replay(es).Some? && Replay(es).value.Live?
    ensures var x, l := Replay(es).value, LedgerOf(es);
            && x.recorded + x.surplus + l.released == l.initial + l.deposits + l.funded
            && x.surplus == RecentDeposits(es)
  {
    if !es[|es| - 1].Delegated? {
      SessionLedger(es[..|es| - 1]);
    }
  }

  lemma {:induction false} ReplayMore(es: seq<Event>, more: seq<Event>)
    requires Replay(es).Some?
    ensures Replay(es + more) == ReplayFrom(Replay(es).value, more)
  {
    if more == [] {
      assert es + more == es;
    } else {
      ReplayMore(es, more[..|more| - 1]);
      assert (es + more)[..|es + more| - 1] == es + more[..|more| - 1];
    }
  }

  function ReplayFrom(x: Session, es: seq<Event>): Option<Session> {
    if es == [] then Some(x)
    else match ReplayFrom(x, es[..|es| - 1])
         case None => None
         case Some(y) => Step(y, es[|es| - 1])
  }
}
