/**
 * Handle values the server takes as they come: one that nobody was ever given, and one
 * given twice once the counter has wrapped (crates/fibby/src/server.rs).
 */
module ServerHandles {
  import opened Base
  import opened Server
  import opened ServerHistory
  import C = Card

  // --- a transaction under a value nobody was given ---------------------------------

  predicate Unowned(conns: Conns, h: int) { forall c :: c in conns ==> h !in conns[c] }

  /** Card 0's transaction is held by a value that is no open handle. */
  predicate StrayHolds(s: State, h: int) {
    Shaped(s) && s.shares[0].holder == Some(h) && Unowned(s.conns, h)
  }

  /** A connection ends the transaction of that very value. */
  predicate Releases(op: Op, h: int) { op.End? && op.h == h }

  lemma {:induction false} CloseAllKeepsTheStray(chip: C.Chip, s: State, c: nat, order: seq<int>, h: int)
    requires StrayHolds(s, h) && c in s.conns
    ensures StrayHolds(CloseAll(chip, s, c, order), h)
  {
    hide AfterClose;
    if order != [] {
      var n := |order| - 1;
      CloseAllKeepsTheStray(chip, s, c, order[..n], h);
      CloseKeepsTheStray(chip, CloseAll(chip, s, c, order[..n]), c, order[n], C.DISPOSITION_LEAVE, h);
    }
  }

  lemma CloseKeepsTheStray(chip: C.Chip, s: State, c: nat, g: int, disposition: nat, h: int)
    requires StrayHolds(s, h) && c in s.conns
    ensures StrayHolds(AfterClose(chip, s, c, g, disposition).0, h)
  {
    hide C.Step;
  }

  lemma ConnectKeepsTheStray(chip: C.Chip, s: State, c: nat, name: Bytes, h: int)
    requires StrayHolds(s, h) && c in s.conns && !MintedBefore(h, AfterConnect(chip, s, c, name).0.minted)
    ensures StrayHolds(AfterConnect(chip, s, c, name).0, h)
  {
    hide C.Step, I32, ReaderFor;
    assert h != I32(s.minted + 1) || !AfterConnect(chip, s, c, name).1.Opened? by {
      assert 1 <= s.minted + 1;
    }
  }

  lemma AttemptLeavesShares(chip: C.Chip, s: State, c: nat, w: Wait, now: int, drawn: Bytes)
    requires Shaped(s) && w.reader < |s.cards|
    ensures var t := Attempt(chip, s, c, w, now, drawn).0; Shaped(t) && t.shares == s.shares && t.conns == s.conns
  {
    hide C.Step;
  }

  lemma RestOnTheStray(chip: C.Chip, s: State, op: Op, h: int)
    requires StrayHolds(s, h) && Enabled(s, op) && !op.Connect? && !op.Close? && !op.HangUp?
    ensures var t := Server.Step(chip, s, op).0;
            && Shaped(t) && (t.shares[0].holder == Some(h) <==> !Releases(op, h)) && Unowned(t.conns, h)
  {
    hide C.Step, Attempt;
    match op
    case Transmit(c, g, apdu, now, drawn) => AttemptLeavesShares(chip, s, c, Wait(g, BackendOf(s.conns[c], g), apdu), now, drawn);
    case Retry(c, now, drawn) => AttemptLeavesShares(chip, s, c, s.waiting[c], now, drawn);
    case _ =>
  }

  lemma HangUpKeepsTheStray(chip: C.Chip, s: State, c: nat, order: seq<int>, h: int)
    requires StrayHolds(s, h) && Enabled(s, HangUp(c, order))
    ensures StrayHolds(Server.Step(chip, s, HangUp(c, order)).0, h)
  {
    hide CloseAll;
    CloseAllKeepsTheStray(chip, s, c, order, h);
    CloseAllKeepsWaiting(chip, s, c, order);
  }

  lemma {:induction false} CloseAllKeepsWaiting(chip: C.Chip, s: State, c: nat, order: seq<int>)
    requires Shaped(s) && c in s.conns
    ensures CloseAll(chip, s, c, order).waiting == s.waiting
  {
    hide AfterClose;
    if order != [] {
      CloseAllKeepsWaiting(chip, s, c, order[..|order| - 1]);
      ClosedTable(chip, CloseAll(chip, s, c, order[..|order| - 1]), c, order[|order| - 1], C.DISPOSITION_LEAVE);
    }
  }

  /** One step: only an end-transaction that names the very value lets go of card 0; no close and no hang-up does. */
  lemma OnlyItsOwnEndReleases(chip: C.Chip, s: State, op: Op, h: int)
    requires StrayHolds(s, h) && Enabled(s, op)
    requires !MintedBefore(h, Server.Step(chip, s, op).0.minted)
    ensures var t := Server.Step(chip, s, op).0;
            && Shaped(t) && Unowned(t.conns, h) && (t.shares[0].holder == Some(h) <==> !Releases(op, h))
  {
    hide C.Step, I32, MintedBefore, CloseAll, AfterClose, AfterConnect, AfterBegin, AfterEnd, AfterTransmit, AfterReconnect, Attempt;
    match op
    case Connect(c, name) => ConnectKeepsTheStray(chip, s, c, name, h);
    case Close(c, g, disposition) => CloseKeepsTheStray(chip, s, c, g, disposition, h);
    case HangUp(c, order) => HangUpKeepsTheStray(chip, s, c, order, h);
    case _ => RestOnTheStray(chip, s, op, h);
  }

  lemma {:induction false} StrayHoldsOn(chip: C.Chip, s: State, ops: seq<Op>, h: int)
    requires StrayHolds(s, h) && !MintedBefore(h, Run(chip, s, ops).minted)
    requires forall op :: op in ops ==> !Releases(op, h)
    ensures StrayHolds(Run(chip, s, ops), h)
  {
    hide Server.Step, Shaped, Unowned, MintedBefore, Releases, Enabled;
    if ops != [] {
      var n := |ops| - 1;
      var t := Run(chip, s, ops[..n]);
      assert forall op :: op in ops[..n] ==> op in ops;
      assert ops[n] in ops;
      MintedGrows(chip, s, ops);
      StillUnminted(h, t.minted, Run(chip, s, ops).minted);
      assert Run(chip, s, ops) == Next(chip, t, ops[n]);
      StrayHoldsOn(chip, s, ops[..n], h);
      if Shaped(t) && Enabled(t, ops[n]) {
        OnlyItsOwnEndReleases(chip, t, ops[n], h);
      }
    }
  }

  lemma StillUnminted(h: int, n: nat, m: nat)
    requires n <= m && !MintedBefore(h, m)
    ensures !MintedBefore(h, n)
  {
  }

  lemma StrangerArrives(chip: C.Chip, s: State, c: nat, h: int)
    requires Initial(s)
    ensures Run(chip, s, [Accept(c), Begin(c, h)]) ==
            s.(conns := map[c := map[]], shares := s.shares[0 := Share(0, Some(h))])
  {
    var s1 := s.(conns := map[c := map[]]);
    assert s.shares[0] in s.shares;
    RunOfTwo(chip, s, Accept(c), Begin(c, h));
    assert Next(chip, s, Accept(c)) == s1;
    assert Next(chip, s1, Begin(c, h)) == AfterBegin(s1, c, h).0;
  }

  /** The books are broken at once: the holder is a handle of nobody. */
  lemma StrangerBreaksTheBooks(chip: C.Chip, s: State, c: nat, h: int)
    requires Initial(s)
    ensures var t := Run(chip, s, [Accept(c), Begin(c, h)]); StrayHolds(t, h) && t.minted == 0 && !Inv(t)
  {
    hide Run, Counted, Quiet, WaitersOwn, AllMinted;
    StrangerArrives(chip, s, c, h);
    StrayIsNoHandle(Run(chip, s, [Accept(c), Begin(c, h)]), h);
  }

  lemma StrayIsNoHandle(s: State, h: int)
    requires StrayHolds(s, h)
    ensures !Inv(s)
  {
    hide Counted, Quiet, WaitersOwn, AllMinted, Distinct;
    assert !LiveOn(s.conns, h, 0);
  }

  /**
   * A client that begins a transaction with a value nobody was given takes card 0. Whatever all
   * clients do from then on, with any handles, closing and hanging up included, the value keeps
   * the card, until someone ends the transaction by that very value or the counter comes round to it.
   */
  lemma StrangerKeepsCardZero(chip: C.Chip, s: State, c: nat, h: int, ops: seq<Op>)
    requires Initial(s) && (forall op :: op in ops ==> !Releases(op, h))
    requires !MintedBefore(h, Run(chip, s, [Accept(c), Begin(c, h)] + ops).minted)
    ensures StrayHolds(Run(chip, s, [Accept(c), Begin(c, h)] + ops), h)
  {
    hide Run, Inv, StrayHolds, MintedBefore, Releases;
    StrangerBreaksTheBooks(chip, s, c, h);
    RunAppends(chip, s, [Accept(c), Begin(c, h)], ops);
    StrayHoldsOn(chip, Run(chip, s, [Accept(c), Begin(c, h)]), ops, h);
  }

  // --- a value given twice --------------------------------------------------------------

  /** One client keeps the first handle open while another connects and closes again, `n` times. */
  function Churn(name: Bytes, n: nat): seq<Op> {
    if n == 0 then [Accept(0), Accept(1), Connect(0, name)]
    else Churn(name, n - 1) + [Connect(1, name), Close(1, I32(n + 1), C.DISPOSITION_LEAVE)]
  }

  predicate Churned(t: State, names: seq<Bytes>, i: nat, n: nat) {
    && Shaped(t) && t.names == names && i < |t.cards| && t.cards[i].inserted && t.waiting == map[] && t.minted == n + 1
    && t.conns == map[0 := map[1 := i], 1 := map[]]
  }

  lemma FirstHandle(chip: C.Chip, s: State, name: Bytes, i: nat)
    requires Initial(s) && ReaderFor(s.names, name) == Some(i) && i < |s.cards| && s.cards[i].inserted
    ensures Churned(Run(chip, s, Churn(name, 0)), s.names, i, 0)
  {
    hide C.Step, ReaderFor, Next;
    RunOfThree(chip, s, Accept(0), Accept(1), Connect(0, name));
    var s1 := s.(conns := map[0 := map[]]);
    var s2 := s.(conns := map[0 := map[], 1 := map[]]);
    assert Next(chip, s, Accept(0)) == s1 by { ClientArrives(chip, s, 0); }
    assert Next(chip, s1, Accept(1)) == s2 by {
      ClientArrives(chip, s1, 1);
      assert s1.conns[1 := map[]] == s2.conns;
    }
    ClientConnects(chip, s2, 0, name, i);
    assert I32(1) == 1;
  }

  lemma Closes(chip: C.Chip, s: State, d: nat, h: int, i: nat)
    requires Shaped(s) && d in s.conns && d !in s.waiting && h in s.conns[d] && i < |s.cards|
    ensures var t := Next(chip, s, Close(d, h, C.DISPOSITION_LEAVE));
            && Shaped(t) && t.names == s.names && t.waiting == s.waiting && t.minted == s.minted
            && t.conns == s.conns[d := s.conns[d] - {h}]
            && |t.cards| == |s.cards| && t.cards[i].inserted == s.cards[i].inserted
  {
    hide C.Step;
  }

  lemma ChurnOnce(chip: C.Chip, t: State, name: Bytes, i: nat, n: nat)
    requires n > 0 && n + 1 <= TWO_32 && Churned(t, t.names, i, n - 1) && ReaderFor(t.names, name) == Some(i)
    ensures var u := Next(chip, Next(chip, t, Connect(1, name)), Close(1, I32(n + 1), C.DISPOSITION_LEAVE));
            Churned(u, t.names, i, n)
  {
    hide ReaderFor, Next, I32;
    var h := I32(n + 1);
    ClientConnects(chip, t, 1, name, i);
    var u := Next(chip, t, Connect(1, name));
    assert u.conns == map[0 := map[1 := i], 1 := map[h := i]];
    Closes(chip, u, 1, h, i);
    var v := Next(chip, u, Close(1, h, C.DISPOSITION_LEAVE));
    assert v.conns == map[0 := map[1 := i], 1 := map[]];
  }

  lemma {:induction false} ChurnRuns(chip: C.Chip, s: State, name: Bytes, i: nat, n: nat)
    requires Initial(s) && ReaderFor(s.names, name) == Some(i) && i < |s.cards| && s.cards[i].inserted
    requires n + 1 <= TWO_32
    ensures Churned(Run(chip, s, Churn(name, n)), s.names, i, n)
    ensures forall op :: op in Churn(name, n) ==> op.Accept? || op.Connect? || op.Close?
  {
    hide ReaderFor, Next, I32, Churned, Run;
    if n == 0 {
      FirstHandle(chip, s, name, i);
    } else {
      var connect, close := Connect(1, name), Close(1, I32(n + 1), C.DISPOSITION_LEAVE);
      ChurnRuns(chip, s, name, i, n - 1);
      var before := Churn(name, n - 1);
      var t := Run(chip, s, before);
      assert t.names == s.names by { NamesOf(t, s.names, i, n - 1); }
      ChurnOnce(chip, t, name, i, n);
      assert Churn(name, n) == (before + [connect]) + [close];
      RunOneMore(chip, s, before, connect);
      RunOneMore(chip, s, before + [connect], close);
    }
  }

  lemma NamesOf(t: State, names: seq<Bytes>, i: nat, n: nat)
    requires Churned(t, names, i, n)
    ensures t.names == names
  {
  }

  /**
   * The counter does come round: after 2^32 connects, by clients that name only their own
   * handles, one more gives a second client the handle the first client still has open.
   */
  lemma HandleIsGivenTwice(chip: C.Chip, s: State, name: Bytes, i: nat, n: nat)
    requires Initial(s) && ReaderFor(s.names, name) == Some(i) && i < |s.cards| && s.cards[i].inserted
    requires n + 1 == TWO_32
    ensures var t := Run(chip, s, Churn(name, n));
            && OwnRun(chip, s, Churn(name, n)) && Inv(t) && t.minted == TWO_32 && 1 in t.conns && 0 in t.conns && 1 in t.conns[0]
            && var (u, reply) := AfterConnect(chip, t, 1, name);
               reply == Opened(1) && 1 in u.conns && 0 in u.conns && 1 in u.conns[0] && 1 in u.conns[1] && !Inv(u)
  {
    hide ReaderFor, Run, Churn, Inv, OwnRun;
    var t := Run(chip, s, Churn(name, n));
    InitialIsInv(s);
    ChurnRuns(chip, s, name, i, n);
    UnnamedIsOwn(chip, s, Churn(name, n));
    InvOverRuns(chip, s, Churn(name, n));
    LastConnect(chip, t, name, i, n);
  }

  lemma LastConnect(chip: C.Chip, t: State, name: Bytes, i: nat, n: nat)
    requires Inv(t) && Churned(t, t.names, i, n) && n + 1 == TWO_32 && ReaderFor(t.names, name) == Some(i)
    ensures var (u, reply) := AfterConnect(chip, t, 1, name);
            reply == Opened(1) && 1 in u.conns && 0 in u.conns && 1 in u.conns[0] && 1 in u.conns[1] && !Inv(u)
  {
    hide ReaderFor, Inv, C.Step;
    assert I32(1) == 1;
    OldestHandleIsReused(chip, t, 1, name, 0);
  }
}
