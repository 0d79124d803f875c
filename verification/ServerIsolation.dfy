/**
 * What one client can and cannot do to a card other clients are using
 * (crates/fibby/src/server.rs).
 */
module ServerIsolation {
  import opened Base
  import opened Server
  import opened ServerHistory
  import C = Card

  // --- a card someone else keeps open ------------------------------------------------

  /** `op` opens, re-initialises or gives up handles, resets nothing, and is not about handle `g` of connection `d`. */
  predicate Spares(op: Op, d: nat, g: int) {
    match op
    case Connect(_, _) => true
    case Reconnect(c, h, initialization) => (c, h) != (d, g) && !C.Resets(initialization)
    case Close(c, h, disposition) => (c, h) != (d, g) && !C.Resets(disposition)
    case HangUp(c, _) => c != d
    case _ => false
  }

  lemma TwoHandles(conns: Conns, c: nat, h: int, d: nat, g: int, i: nat)
    requires c in conns && h in conns[c] && conns[c][h] == i
    requires d in conns && g in conns[d] && conns[d][g] == i && (c, h) != (d, g)
    ensures |HandlesOn(conns, i)| >= 2
  {
    assert {(c, h), (d, g)} <= HandlesOn(conns, i);
    CardinalityMonotone({(c, h), (d, g)}, HandlesOn(conns, i));
  }

  lemma {:induction false} CardinalityMonotone<T>(a: set<T>, b: set<T>)
    requires a <= b
    ensures |a| <= |b|
  {
    if a != {} {
      var x :| x in a;
      CardinalityMonotone(a - {x}, b - {x});
    }
  }

  lemma OpenHandleCounts(s: State, d: nat, g: int)
    requires Inv(s) && d in s.conns && g in s.conns[d]
    ensures s.shares[s.conns[d][g]].openHandles >= 1
    ensures forall c, h :: c in s.conns && h in s.conns[c] && s.conns[c][h] == s.conns[d][g] && (c, h) != (d, g) ==>
              s.shares[s.conns[d][g]].openHandles >= 2
  {
    hide HandlesOn;
    var i := s.conns[d][g];
    RemoveHandle(s.conns, d, g, i);
    assert HandlesOn(s.conns, i) != {};
    forall c, h | c in s.conns && h in s.conns[c] && s.conns[c][h] == i && (c, h) != (d, g)
      ensures s.shares[i].openHandles >= 2
    {
      TwoHandles(s.conns, c, h, d, g, i);
    }
  }

  lemma CloseSparesOthers(chip: C.Chip, s: State, c: nat, h: int, disposition: nat, d: nat, g: int)
    requires Inv(s) && c in s.conns && d in s.conns && g in s.conns[d]
    requires (c, h) != (d, g) && !C.Resets(disposition)
    ensures AfterClose(chip, s, c, h, disposition).0.cards[s.conns[d][g]] == s.cards[s.conns[d][g]]
  {
    hide Books, C.Step;
    OpenHandleCounts(s, d, g);
  }

  lemma {:induction false} HangUpSparesOthers(chip: C.Chip, s: State, c: nat, order: seq<int>, d: nat, g: int)
    requires Inv(s) && c in s.conns && c !in s.waiting && d in s.conns && g in s.conns[d] && c != d
    ensures CloseAll(chip, s, c, order).cards[s.conns[d][g]] == s.cards[s.conns[d][g]]
  {
    hide Books, Quiet, WaitersOwn, AfterClose;
    if order != [] {
      var n := |order| - 1;
      HangUpSparesOthers(chip, s, c, order[..n], d, g);
      CloseAllKeepsInv(chip, s, c, order[..n]);
      CloseSparesOthers(chip, CloseAll(chip, s, c, order[..n]), c, order[n], C.DISPOSITION_LEAVE, d, g);
    }
  }

  /**
   * While a connection keeps a handle open on a card, nobody's connect, reconnect, close or
   * hang-up changes that card, unless it asks for a reset or unpower or is about that very handle.
   */
  lemma OthersLeaveTheCardAlone(chip: C.Chip, s: State, op: Op, d: nat, g: int)
    requires Inv(s) && Enabled(s, op) && OwnHandles(s, op) && Spares(op, d, g)
    requires d in s.conns && g in s.conns[d]
    ensures SameCard(s, Server.Step(chip, s, op).0, d, g)
  {
    hide Books, Quiet, WaitersOwn, C.Step, CloseAll;
    OpenHandleCounts(s, d, g);
    match op
    case Close(c, h, disposition) => CloseSparesOthers(chip, s, c, h, disposition, d, g);
    case HangUp(c, order) => HangUpSparesOthers(chip, s, c, order, d, g);
    case _ =>
  }

  // --- a dropped connection -----------------------------------------------------------

  ghost function Listed(c: nat, order: seq<int>): set<(nat, int)> { set h | h in order :: (c, h) }

  /** Someone has reader `i` open, and only through the handles of `c` that `order` lists. */
  ghost predicate OnlyListed(conns: Conns, i: nat, c: nat, order: seq<int>) {
    HandlesOn(conns, i) != {} && HandlesOn(conns, i) <= Listed(c, order)
  }

  /**
   * A connection that goes away takes its handles, its counts and its transactions with it,
   * and, in whatever order its handles are closed, powers down exactly the cards that only it had open.
   */
  lemma DroppedConnectionLeavesNothing(chip: C.Chip, s: State, c: nat, order: seq<int>)
    requires Inv(s) && Enabled(s, HangUp(c, order))
    ensures var s' := Server.Step(chip, s, HangUp(c, order)).0;
            && Inv(s') && s'.conns == s.conns - {c}
            && (forall i: nat :: i < |s'.shares| && s'.shares[i].holder.Some? ==> s'.shares[i].holder.value !in s.conns[c])
            && (forall i: nat :: i < |s.cards| ==>
                  s'.cards[i] == if OnlyListed(s.conns, i, c, order) then C.PowerOff(s.cards[i]) else s.cards[i])
  {
    hide OnlyListed, CloseAll, Counted, AllMinted, Quiet, WaitersOwn;
    HangUpKeepsInv(chip, s, c, order);
    CloseAllKeepsInv(chip, s, c, order);
    var s' := Server.Step(chip, s, HangUp(c, order)).0;
    assert s'.conns == s.conns - {c};
    forall i: nat | i < |s'.shares| && s'.shares[i].holder.Some? ensures s'.shares[i].holder.value !in s.conns[c] {
      assert LiveOn(s'.conns, s'.shares[i].holder.value, i);
    }
    forall i: nat | i < |s.cards|
      ensures s'.cards[i] == if OnlyListed(s.conns, i, c, order) then C.PowerOff(s.cards[i]) else s.cards[i]
    {
      CloseAllPowersDown(chip, s, c, order, i);
    }
  }

  /** Closing one more handle: the card goes down exactly if that was the last handle open on it. */
  lemma ClosePowersDown(chip: C.Chip, s: State, c: nat, h: int, i: nat)
    requires Inv(s) && c in s.conns && h in s.conns[c] && i < |s.cards|
    ensures var s' := AfterClose(chip, s, c, h, C.DISPOSITION_LEAVE).0;
            s'.cards[i] == if HandlesOn(s.conns, i) == {(c, h)} then C.PowerOff(s.cards[i]) else s.cards[i]
  {
    hide HandlesOn, Held, Distinct, AllMinted, Quiet, WaitersOwn, C.Step;
    RemoveHandle(s.conns, c, h, i);
    assert s.shares[i].openHandles == |HandlesOn(s.conns, i)|;
    if s.conns[c][h] == i {
      assert |HandlesOn(s.conns, i) - {(c, h)}| == s.shares[i].openHandles - 1;
      assert HandlesOn(s.conns, i) == {(c, h)} <==> HandlesOn(s.conns, i) - {(c, h)} == {};
    }
  }

  lemma {:induction false} CloseAllHandles(chip: C.Chip, s: State, c: nat, order: seq<int>, i: nat)
    requires Inv(s) && c in s.conns && c !in s.waiting
    requires forall h :: h in order ==> h in s.conns[c]
    requires forall j, k :: 0 <= j < k < |order| ==> order[j] != order[k]
    ensures HandlesOn(CloseAll(chip, s, c, order).conns, i) == HandlesOn(s.conns, i) - Listed(c, order)
  {
    hide Inv, Shaped, AfterClose, HandlesOn;
    if order != [] {
      var n := |order| - 1;
      assert Shaped(s) by { ShapedOf(s); }
      CloseAllHandles(chip, s, c, order[..n], i);
      CloseAllKeepsInv(chip, s, c, order[..n]);
      ClosedTable(chip, CloseAll(chip, s, c, order[..n]), c, order[n], C.DISPOSITION_LEAVE);
      RemoveHandle(CloseAll(chip, s, c, order[..n]).conns, c, order[n], i);
      OneMoreListed(c, order);
    }
  }

  lemma ShapedOf(s: State)
    requires Inv(s)
    ensures Shaped(s)
  {
  }

  lemma OneMoreListed(c: nat, order: seq<int>)
    requires order != []
    ensures Listed(c, order) == Listed(c, order[..|order| - 1]) + {(c, order[|order| - 1])}
  {
    var n := |order| - 1;
    assert forall h :: h in order <==> h in order[..n] || h == order[n];
  }

  lemma {:induction false} CloseAllPowersDown(chip: C.Chip, s: State, c: nat, order: seq<int>, i: nat)
    requires Inv(s) && c in s.conns && c !in s.waiting && i < |s.cards|
    requires forall h :: h in order ==> h in s.conns[c]
    requires forall j, k :: 0 <= j < k < |order| ==> order[j] != order[k]
    ensures CloseAll(chip, s, c, order).cards[i] ==
            if OnlyListed(s.conns, i, c, order) then C.PowerOff(s.cards[i]) else s.cards[i]
  {
    hide Inv, AfterClose, HandlesOn, Listed;
    ShapedOf(s);
    if order == [] {
      assert Listed(c, order) == {} by { NothingListed(c); }
    } else {
      var n := |order| - 1;
      var before, h := CloseAll(chip, s, c, order[..n]), order[n];
      CloseAllPowersDown(chip, s, c, order[..n], i);
      CloseAllKeepsInv(chip, s, c, order[..n]);
      CloseAllHandles(chip, s, c, order[..n], i);
      ClosePowersDown(chip, before, c, h, i);
      OneMoreListed(c, order);
      NotYetListed(c, order);
    }
  }

  lemma NothingListed(c: nat)
    ensures Listed(c, []) == {}
  {
  }

  lemma NotYetListed(c: nat, order: seq<int>)
    requires order != [] && forall j, k :: 0 <= j < k < |order| ==> order[j] != order[k]
    ensures (c, order[|order| - 1]) !in Listed(c, order[..|order| - 1])
  {
  }

  // --- transactions ----------------------------------------------------------------------

  /** An operation of a client other than `d`. */
  predicate ByOther(op: Op, d: nat) { !op.Control? && op.c != d }

  /** Anything but an operation of handle `g` of connection `d` and that connection's hang-up. */
  predicate Apart(op: Op, d: nat, g: int) {
    match op
    case Reconnect(c, h, _) => (c, h) != (d, g)
    case Close(c, h, _) => (c, h) != (d, g)
    case Begin(c, h) => (c, h) != (d, g)
    case End(c, h, _) => (c, h) != (d, g)
    case Transmit(c, h, _, _, _) => (c, h) != (d, g)
    case HangUp(c, _) => c != d
    case _ => true
  }

  /** Handle `g` of connection `d` is open and holds its card's transaction. */
  predicate HoldsCard(s: State, d: nat, g: int) {
    d in s.conns && g in s.conns[d] && s.conns[d][g] < |s.shares| && s.shares[s.conns[d][g]].holder == Some(g)
  }

  /** The card that handle is open on is the same in both states. */
  ghost predicate SameCard(s: State, s': State, d: nat, g: int) {
    d in s.conns && g in s.conns[d] && s.conns[d][g] < |s.cards| == |s'.cards| && s'.cards[s.conns[d][g]] == s.cards[s.conns[d][g]]
  }

  /** It still holds, on the same reader. */
  predicate StillHolds(s: State, s': State, d: nat, g: int) {
    HoldsCard(s, d, g) && HoldsCard(s', d, g) && s'.conns[d][g] == s.conns[d][g]
  }

  lemma CloseKeepsTheHolder(chip: C.Chip, s: State, c: nat, h: int, disposition: nat, d: nat, g: int)
    requires Inv(s) && c in s.conns && (c, h) != (d, g) && HoldsCard(s, d, g)
    ensures StillHolds(s, AfterClose(chip, s, c, h, disposition).0, d, g)
  {
    hide Books, Quiet, WaitersOwn, C.Step;
    if h in s.conns[c] && c != d { DistinctHandles(s, c, d, g); }
  }

  lemma EndKeepsTheHolder(chip: C.Chip, s: State, c: nat, h: int, disposition: nat, d: nat, g: int)
    requires Inv(s) && c in s.conns && h in s.conns[c] && (c, h) != (d, g) && HoldsCard(s, d, g)
    ensures StillHolds(s, AfterEnd(chip, s, c, h, disposition).0, d, g) && StillHolds(s, AfterBegin(s, c, h).0, d, g)
  {
    hide Books, Quiet, WaitersOwn, C.Step;
    if c != d { DistinctHandles(s, c, d, g); }
  }

  /**
   * Nobody but the holder can end a transaction: not by a hang-up, a close or an end of their
   * own, and not through another handle of the holder's own connection.
   */
  lemma OthersKeepTheHolder(chip: C.Chip, s: State, op: Op, d: nat, g: int)
    requires Inv(s) && Enabled(s, op) && OwnHandles(s, op) && Apart(op, d, g) && HoldsCard(s, d, g)
    requires op.Connect? && op.c == d ==> Server.Step(chip, s, op).0.minted <= TWO_32
    ensures StillHolds(s, Server.Step(chip, s, op).0, d, g)
    ensures op.Control? || ByOther(op, d) ==> Server.Step(chip, s, op).0.conns[d] == s.conns[d]
  {
    hide Books, Quiet, WaitersOwn, C.Step, CloseAll, AfterClose, AfterEnd, AfterBegin, AfterConnect, StillHolds;
    if op.Control? || ByOther(op, d) { OthersKeepTheTable(chip, s, op, d); }
    match op
    case Close(c, h, disposition) => CloseKeepsTheHolder(chip, s, c, h, disposition, d, g);
    case HangUp(c, order) => HangUpKeepsTheHolder(chip, s, c, order, d, g);
    case End(c, h, disposition) => EndKeepsTheHolder(chip, s, c, h, disposition, d, g);
    case Begin(c, h) => EndKeepsTheHolder(chip, s, c, h, 0, d, g);
    case Connect(c, name) => ConnectKeepsTheHolder(chip, s, c, name, d, g);
    case _ => RestKeepsTheHolder(chip, s, op, d, g);
  }

  lemma ConnectKeepsTheHolder(chip: C.Chip, s: State, c: nat, name: Bytes, d: nat, g: int)
    requires Inv(s) && c in s.conns && HoldsCard(s, d, g)
    requires c == d ==> AfterConnect(chip, s, c, name).0.minted <= TWO_32
    ensures StillHolds(s, AfterConnect(chip, s, c, name).0, d, g)
  {
    hide C.Step, I32, Position, Books, Quiet, WaitersOwn;
    if c == d && s.minted < TWO_32 { MintedHandleIsFree(s); }
  }

  /** A client's table of handles is its own: no operation of another touches it. */
  lemma OthersKeepTheTable(chip: C.Chip, s: State, op: Op, d: nat)
    requires Inv(s) && Enabled(s, op) && (op.Control? || ByOther(op, d)) && d in s.conns
    ensures d in Server.Step(chip, s, op).0.conns && Server.Step(chip, s, op).0.conns[d] == s.conns[d]
  {
    hide Books, Quiet, WaitersOwn, C.Step, CloseAll, I32, ReaderFor;
    if op.HangUp? { CloseAllKeepsInv(chip, s, op.c, op.order); }
  }

  lemma RestKeepsTheHolder(chip: C.Chip, s: State, op: Op, d: nat, g: int)
    requires Shaped(s) && Enabled(s, op) && Apart(op, d, g) && HoldsCard(s, d, g)
    requires op.Accept? || op.Reconnect? || op.Transmit? || op.Retry? || op.GiveUp? || op.Control?
    ensures StillHolds(s, Server.Step(chip, s, op).0, d, g)
  {
    hide C.Step;
  }

  lemma HangUpKeepsTheHolder(chip: C.Chip, s: State, c: nat, order: seq<int>, d: nat, g: int)
    requires Inv(s) && Enabled(s, HangUp(c, order)) && c != d && HoldsCard(s, d, g)
    ensures StillHolds(s, Server.Step(chip, s, HangUp(c, order)).0, d, g)
  {
    hide Inv, Shaped, CloseAll;
    ShapedOf(s);
    CloseAllKeepsTheHolder(chip, s, c, order, d, g);
    assert c !in s.waiting;
  }

  lemma {:induction false} CloseAllKeepsTheHolder(chip: C.Chip, s: State, c: nat, order: seq<int>, d: nat, g: int)
    requires Inv(s) && c in s.conns && c !in s.waiting && c != d && HoldsCard(s, d, g)
    ensures StillHolds(s, CloseAll(chip, s, c, order), d, g)
  {
    hide Inv, AfterClose;
    ShapedOf(s);
    if order != [] {
      var n := |order| - 1;
      CloseAllKeepsTheHolder(chip, s, c, order[..n], d, g);
      CloseAllKeepsInv(chip, s, c, order[..n]);
      CloseKeepsTheHolder(chip, CloseAll(chip, s, c, order[..n]), c, order[n], C.DISPOSITION_LEAVE, d, g);
    }
  }

  lemma DistinctHandles(s: State, c: nat, d: nat, g: int)
    requires Inv(s) && c in s.conns && d in s.conns && c != d && g in s.conns[d]
    ensures g !in s.conns[c]
  {
  }

  /** Asks for no reset or unpower, and is no control command on reader `i`. */
  predicate HandsOff(op: Op, i: nat) {
    match op
    case Reconnect(_, _, initialization) => !C.Resets(initialization)
    case Close(_, _, disposition) => !C.Resets(disposition)
    case Control(reader, _) => reader != i
    case _ => true
  }

  /** No APDU is parked at reader `i`. */
  predicate NobodyParkedAt(s: State, i: nat) { forall c :: c in s.waiting ==> s.waiting[c].reader != i }

  /**
   * While a handle holds the transaction, nothing done through any other handle, of the same
   * connection or of another, changes the card, except a reset or unpower, or the retry of an
   * APDU parked before the transaction began.
   */
  lemma HolderHasTheCardToItself(chip: C.Chip, s: State, op: Op, d: nat, g: int)
    requires Inv(s) && Enabled(s, op) && OwnHandles(s, op) && Apart(op, d, g) && HoldsCard(s, d, g)
    requires HandsOff(op, s.conns[d][g]) && (op.Retry? ==> s.waiting[op.c].reader != s.conns[d][g])
    ensures SameCard(s, Server.Step(chip, s, op).0, d, g)
  {
    hide Books, Quiet, WaitersOwn, C.Step, CloseAll, I32, Position;
    if op.Connect? || op.Reconnect? || op.Close? || op.HangUp? {
      OthersLeaveTheCardAlone(chip, s, op, d, g);
    } else if (op.Begin? || op.End? || op.Transmit?) && op.c != d {
      DistinctHandles(s, op.c, d, g);
    }
  }

  /** Every other handle on that card is answered with a sharing violation, or has nothing to end. */
  lemma OtherHandlesAreRefused(chip: C.Chip, s: State, c: nat, h: int, d: nat, g: int)
    requires Inv(s) && HoldsCard(s, d, g) && (c, h) != (d, g)
    requires c in s.conns && h in s.conns[c] && s.conns[c][h] == s.conns[d][g]
    ensures forall apdu, now, drawn :: AfterTransmit(chip, s, c, h, apdu, now, drawn) == (s, SharingViolation)
    ensures AfterBegin(s, c, h) == (s, SharingViolation)
    ensures forall disposition :: AfterEnd(chip, s, c, h, disposition) == (s, Done)
  {
    hide Books, Quiet, WaitersOwn, Attempt;
    if c != d { DistinctHandles(s, c, d, g); }
  }

  lemma NobodyParks(chip: C.Chip, s: State, op: Op, d: nat, g: int)
    requires Inv(s) && Enabled(s, op) && OwnHandles(s, op) && Apart(op, d, g) && HoldsCard(s, d, g)
    requires NobodyParkedAt(s, s.conns[d][g])
    ensures NobodyParkedAt(Server.Step(chip, s, op).0, s.conns[d][g])
  {
    hide Books, Quiet, WaitersOwn, C.Step, CloseAll, I32, Position;
    if op.HangUp? {
      CloseAllKeepsInv(chip, s, op.c, op.order);
    } else if op.Transmit? && op.c != d {
      DistinctHandles(s, op.c, d, g);
    }
  }

  /** None of `ops` is the holder's own, and none resets or controls reader `i`'s card. */
  predicate AllApart(ops: seq<Op>, d: nat, g: int, i: nat) {
    forall op :: op in ops ==> Apart(op, d, g) && HandsOff(op, i)
  }

  lemma {:induction false} HolderKeepsTheCard(chip: C.Chip, s: State, before: seq<Op>, ops: seq<Op>, d: nat, g: int)
    requires Inv(s) && OwnRun(chip, s, before + ops)
    requires var t := Run(chip, s, before);
             HoldsCard(t, d, g) && NobodyParkedAt(t, t.conns[d][g]) && AllApart(ops, d, g, t.conns[d][g])
    ensures var t, u := Run(chip, s, before), Run(chip, s, before + ops);
            Inv(u) && StillHolds(t, u, d, g) && SameCard(t, u, d, g) && NobodyParkedAt(u, t.conns[d][g])
  {
    hide Inv, OwnRun, OwnHandles, Enabled, Server.Step, Apart, HandsOff, Shaped;
    if ops == [] {
      assert before + ops == before;
      InvOverRuns(chip, s, before);
      ShapedOf(Run(chip, s, before));
      HeldIsInRange(Run(chip, s, before), d, g);
    } else {
      var n := |ops| - 1;
      assert before + ops == (before + ops[..n]) + [ops[n]];
      OwnRunPrefix(chip, s, before + ops);
      assert (before + ops)[..|before + ops| - 1] == before + ops[..n];
      assert forall op :: op in ops[..n] ==> op in ops;
      assert ops[n] in ops;
      HolderKeepsTheCard(chip, s, before, ops[..n], d, g);
      InvOverRuns(chip, s, before + ops);
      OwnRunIsShort(chip, s, before + ops);
      var t := Run(chip, s, before + ops[..n]);
      ShapedOf(t);
      RunOneMore(chip, s, before + ops[..n], ops[n]);
      if Enabled(t, ops[n]) {
        NotParkedThere(t, ops[n], t.conns[d][g]);
        OthersKeepTheHolder(chip, t, ops[n], d, g);
        HolderHasTheCardToItself(chip, t, ops[n], d, g);
        NobodyParks(chip, t, ops[n], d, g);
      }
    }
  }

  lemma HeldIsInRange(s: State, d: nat, g: int)
    requires Shaped(s) && HoldsCard(s, d, g)
    ensures SameCard(s, s, d, g)
  {
  }

  lemma NotParkedThere(s: State, op: Op, i: nat)
    requires Shaped(s) && Enabled(s, op) && NobodyParkedAt(s, i)
    ensures op.Retry? ==> s.waiting[op.c].reader != i
  {
  }

  /**
   * From any reachable state in which a handle holds a card's transaction and no APDU is parked
   * there, until that handle's own next operation: whatever all the other handles do, of the same
   * connection and of others, in any order and for however long, the card stays as it is, the
   * holder stays the holder, and every APDU and begin from another handle on that card is refused.
   */
  lemma TransactionsAreIsolated(chip: C.Chip, s: State, before: seq<Op>, ops: seq<Op>, d: nat, g: int)
    requires Initial(s) && OwnRun(chip, s, before + ops)
    requires var t := Run(chip, s, before);
             HoldsCard(t, d, g) && NobodyParkedAt(t, t.conns[d][g]) && AllApart(ops, d, g, t.conns[d][g])
    ensures var t, u := Run(chip, s, before), Run(chip, s, before + ops);
            && Shaped(u) && StillHolds(t, u, d, g) && SameCard(t, u, d, g)
            && forall c, h :: c in u.conns && h in u.conns[c] && (c, h) != (d, g) && u.conns[c][h] == u.conns[d][g] ==>
                 && AfterBegin(u, c, h) == (u, SharingViolation)
                 && forall apdu, now, drawn :: AfterTransmit(chip, u, c, h, apdu, now, drawn) == (u, SharingViolation)
  {
    hide Inv, Run, OwnRun, AfterBegin, AfterTransmit, StillHolds, SameCard, AllApart, NobodyParkedAt;
    InitialIsInv(s);
    HolderKeepsTheCard(chip, s, before, ops, d, g);
    var t, u := Run(chip, s, before), Run(chip, s, before + ops);
    ShapedOf(u);
    StillHoldsCard(t, u, d, g);
    forall c, h | c in u.conns && h in u.conns[c] && (c, h) != (d, g) && u.conns[c][h] == u.conns[d][g]
      ensures AfterBegin(u, c, h) == (u, SharingViolation)
      ensures forall apdu, now, drawn :: AfterTransmit(chip, u, c, h, apdu, now, drawn) == (u, SharingViolation)
    {
      OtherHandlesAreRefused(chip, u, c, h, d, g);
    }
  }

  lemma StillHoldsCard(s: State, s': State, d: nat, g: int)
    requires StillHolds(s, s', d, g)
    ensures HoldsCard(s', d, g) && s'.conns[d][g] == s.conns[d][g]
  {
  }
}
