/**
 * An APDU parked on a touch, and the transactions others begin while it waits
 * (crates/fibby/src/server.rs).
 */
module ServerParked {
  import opened Base
  import opened Server
  import opened ServerHistory
  import opened ServerIsolation
  import C = Card

  /** The APDU connection `c` has parked would, if retried now, run inside another handle's transaction. */
  predicate RetryIsForeign(s: State, c: nat) {
    c in s.waiting && s.waiting[c].reader < |s.shares| && !Admits(s.shares[s.waiting[c].reader], s.waiting[c].handle)
  }

  /** No run of the others, however long, lets `c`'s retry fall into another handle's transaction. */
  ghost predicate NeverForeign(chip: C.Chip, s: State, c: nat) {
    forall ops :: OthersRun(chip, s, ops, c) ==> !RetryIsForeign(Run(chip, s, ops), c)
  }

  predicate OthersRun(chip: C.Chip, s: State, ops: seq<Op>, c: nat) {
    OwnRun(chip, s, ops) && forall op :: op in ops ==> op.Control? || ByOther(op, c)
  }

  lemma OthersKeepTheWaiter(chip: C.Chip, s: State, op: Op, c: nat)
    requires Inv(s) && Enabled(s, op) && (op.Control? || ByOther(op, c)) && c in s.waiting
    ensures var s' := Server.Step(chip, s, op).0; c in s'.waiting && s'.waiting[c] == s.waiting[c]
  {
    hide Books, Quiet, WaitersOwn, C.Step, CloseAll, I32;
    if op.HangUp? { CloseAllKeepsInv(chip, s, op.c, op.order); }
  }

  lemma ByOtherIsApart(op: Op, d: nat, g: int)
    requires op.Control? || ByOther(op, d)
    ensures Apart(op, d, g)
  {
  }

  lemma {:induction false} HolderStaysWhileParked(chip: C.Chip, s: State, ops: seq<Op>, c: nat)
    requires Inv(s) && OthersRun(chip, s, ops, c) && c in s.waiting
    requires s.shares[s.waiting[c].reader].holder == Some(s.waiting[c].handle)
    ensures var s' := Run(chip, s, ops);
            && Inv(s') && c in s'.waiting && s'.waiting[c] == s.waiting[c]
            && s'.shares[s.waiting[c].reader].holder == Some(s.waiting[c].handle)
  {
    hide Books, Quiet, OwnHandles, OwnRun, Server.Step, Enabled;
    if ops != [] {
      var n := |ops| - 1;
      var before := Run(chip, s, ops[..n]);
      assert forall op :: op in ops[..n] ==> op in ops;
      OwnRunPrefix(chip, s, ops);
      HolderStaysWhileParked(chip, s, ops[..n], c);
      InvOverRuns(chip, s, ops);
      assert ops[n] in ops;
      if Enabled(before, ops[n]) {
        assert HoldsCard(before, c, s.waiting[c].handle);
        OwnRunIsShort(chip, s, ops);
        ByOtherIsApart(ops[n], c, s.waiting[c].handle);
        OthersKeepTheHolder(chip, before, ops[n], c, s.waiting[c].handle);
        OthersKeepTheWaiter(chip, before, ops[n], c);
      }
    }
  }

  /** A handle on reader `i` whose connection is not parked. */
  predicate IdleOn(s: State, d: nat, g: int, i: nat) {
    d in s.conns && d !in s.waiting && g in s.conns[d] && s.conns[d][g] == i
  }

  lemma BeginThenRetryIsForeign(chip: C.Chip, s: State, before: seq<Op>, c: nat, d: nat, g: int)
    requires Inv(s) && OthersRun(chip, s, before, c)
    requires var t := Run(chip, s, before);
             c in t.waiting && IdleOn(t, d, g, t.waiting[c].reader)
             && t.waiting[c].reader < |t.shares| && t.shares[t.waiting[c].reader].holder.None?
    ensures var ops := before + [Begin(d, g)]; OthersRun(chip, s, ops, c) && RetryIsForeign(Run(chip, s, ops), c)
  {
    hide Inv, OwnRun, Run, Server.Step;
    var t := Run(chip, s, before);
    InvOverRuns(chip, s, before);
    ShapedOf(t);
    RunOneMore(chip, s, before, Begin(d, g));
    BeginSteps(chip, t, d, g);
    OwnRunIsShort(chip, s, before);
    OwnRunOneMore(chip, s, before, Begin(d, g));
    WaiterIsNot(t, c, d, g);
    assert d != c;
  }

  lemma BeginSteps(chip: C.Chip, s: State, d: nat, g: int)
    requires Shaped(s) && d in s.conns && d !in s.waiting
    ensures Next(chip, s, Begin(d, g)) == AfterBegin(s, d, g).0
  {
  }

  lemma WaiterIsNot(s: State, c: nat, d: nat, g: int)
    requires Inv(s) && c in s.waiting && d in s.conns && d !in s.waiting && g in s.conns[d]
    ensures g != s.waiting[c].handle
  {
    hide Books;
    DistinctHandles(s, d, c, s.waiting[c].handle);
  }

  lemma {:induction false} UnusedNumber(used: set<nat>) returns (d: nat)
    ensures d !in used
    ensures forall n :: n in used ==> n < d
  {
    d := 0;
    if used != {} {
      var n :| n in used;
      var e := UnusedNumber(used - {n});
      d := if e <= n then n + 1 else e;
      forall m | m in used ensures m < d {
        if m != n { assert m in used - {n}; }
      }
    }
  }

  lemma CardIsPutBack(chip: C.Chip, s: State, i: nat)
    requires Shaped(s) && i < |s.cards|
    ensures var t := Next(chip, s, Control(i, C.SetPresent(true)));
            && Shaped(t) && t == s.(cards := t.cards) && t.cards[i].inserted
  {
    hide C.Dispatch;
  }

  /** Another client comes later: the card is put back if it was out, and a handle is opened on it. */
  lemma NewcomerConnects(chip: C.Chip, s: State, c: nat, name: Bytes) returns (before: seq<Op>, d: nat, g: int)
    requires Inv(s) && c in s.waiting && s.minted < TWO_32 && ReaderFor(s.names, name) == Some(s.waiting[c].reader)
    ensures OthersRun(chip, s, before, c)
    ensures var t := Run(chip, s, before);
            && c in t.waiting && t.waiting[c] == s.waiting[c] && IdleOn(t, d, g, s.waiting[c].reader)
            && |t.shares| == |s.shares|
            && t.shares[s.waiting[c].reader].holder == s.shares[s.waiting[c].reader].holder
  {
    hide Books, Quiet, C.Step, I32, ReaderFor, OwnRun, Next, Run;
    d := UnusedNumber(s.conns.Keys + s.waiting.Keys);
    var i := s.waiting[c].reader;
    g := I32(s.minted + 1);
    var put, arrive, connect := Control(i, C.SetPresent(true)), Accept(d), Connect(d, name);
    before := [put, arrive, connect];
    CardIsPutBack(chip, s, i);
    ClientArrives(chip, Next(chip, s, put), d);
    ClientConnects(chip, Next(chip, Next(chip, s, put), arrive), d, name, i);
    RunOfThree(chip, s, put, arrive, connect);
    UnnamedIsOwn(chip, s, before);
  }

  /** Some other client has, or can still get, an idle handle on the card `c` is parked at. */
  ghost predicate OthersCanReach(s: State, c: nat, name: Bytes) {
    c in s.waiting &&
    ((exists d, g :: IdleOn(s, d, g, s.waiting[c].reader))
     || (s.minted < TWO_32 && ReaderFor(s.names, name) == Some(s.waiting[c].reader)))
  }

  lemma FreeCardIsForeignToRetry(chip: C.Chip, s: State, c: nat, name: Bytes) returns (ops: seq<Op>)
    requires Inv(s) && s.minted <= TWO_32 && OthersCanReach(s, c, name)
    requires s.shares[s.waiting[c].reader].holder.None?
    ensures OthersRun(chip, s, ops, c) && RetryIsForeign(Run(chip, s, ops), c)
  {
    hide Books, Quiet, I32, ReaderFor, OwnRun, Server.Step;
    if s.minted < TWO_32 && ReaderFor(s.names, name) == Some(s.waiting[c].reader) {
      var before, d, g := NewcomerConnects(chip, s, c, name);
      BeginThenRetryIsForeign(chip, s, before, c, d, g);
      ops := before + [Begin(d, g)];
    } else {
      var d, g :| IdleOn(s, d, g, s.waiting[c].reader);
      NothingIsOwnRun(chip, s);
      BeginThenRetryIsForeign(chip, s, [], c, d, g);
      ops := [] + [Begin(d, g)];
    }
  }

  /**
   * The transaction is checked once, before the first attempt. So as long as another client has
   * an idle handle on the same card or can still connect to it, a parked APDU is safe from
   * running inside someone else's transaction exactly if its own handle holds the transaction.
   */
  lemma RetriesStayInTheirTransactionIffHeld(chip: C.Chip, s: State, c: nat, name: Bytes)
    requires Inv(s) && s.minted <= TWO_32 && OthersCanReach(s, c, name)
    ensures NeverForeign(chip, s, c) <==> s.shares[s.waiting[c].reader].holder == Some(s.waiting[c].handle)
  {
    hide Books, Quiet, OwnHandles, OwnRun, Server.Step, ReaderFor;
    var w := s.waiting[c];
    if s.shares[w.reader].holder == Some(w.handle) {
      forall ops | OthersRun(chip, s, ops, c) ensures !RetryIsForeign(Run(chip, s, ops), c) {
        HolderStaysWhileParked(chip, s, ops, c);
      }
    } else if s.shares[w.reader].holder.None? {
      var ops := FreeCardIsForeignToRetry(chip, s, c, name);
    } else {
      NothingIsOwnRun(chip, s);
      assert OthersRun(chip, s, [], c) && RetryIsForeign(Run(chip, s, []), c);
    }
  }

  lemma NothingIsOwnRun(chip: C.Chip, s: State)
    requires s.minted <= TWO_32
    ensures OwnRun(chip, s, [])
  {
  }
}
