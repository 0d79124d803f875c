/**
 * What every interleaving of clients keeps in the server: handle and transaction
 * accounting, and the isolation of one client's card session from the others
 * (crates/fibby/src/server.rs).
 */
module ServerHistory {
  import opened Base
  import opened Server
  import C = Card
  import CardHistory

  type Conns = map<nat, Handles>

  // --- the books: counts, holders, handle values --------------------------------

  /** Every open handle bound to reader `i`, with its connection. */
  ghost function HandlesOn(conns: Conns, i: nat): set<(nat, int)> {
    set c, h | c in conns && h in conns[c] && conns[c][h] == i :: (c, h)
  }

  predicate LiveOn(conns: Conns, h: int, i: nat) {
    exists c :: c in conns && h in conns[c] && conns[c][h] == i
  }

  ghost predicate Counted(shares: seq<Share>, conns: Conns) {
    forall i: nat :: i < |shares| ==> shares[i].openHandles == |HandlesOn(conns, i)|
  }

  predicate Held(shares: seq<Share>, conns: Conns) {
    forall i: nat :: i < |shares| && shares[i].holder.Some? ==> LiveOn(conns, shares[i].holder.value, i)
  }

  /** No handle value is live twice. */
  predicate Distinct(conns: Conns) {
    forall c1, c2, h :: c1 in conns && c2 in conns && h in conns[c1] && h in conns[c2] ==> c1 == c2
  }

  ghost predicate MintedBefore(h: int, n: nat) { exists k: nat :: 1 <= k <= n && h == I32(k) }

  ghost predicate AllMinted(conns: Conns, n: nat) {
    forall c, h :: c in conns && h in conns[c] ==> MintedBefore(h, n)
  }

  /** A parked APDU's handle is still open: its connection can do nothing else meanwhile. */
  predicate WaitersOwn(waiting: map<nat, Wait>, conns: Conns) {
    forall c :: c in waiting ==>
      c in conns && waiting[c].handle in conns[c] && conns[c][waiting[c].handle] == waiting[c].reader
  }

  /** No PIN verification, no admin authentication, no outstanding challenge. */
  predicate Sessionless(card: C.Card) {
    !card.session.pinVerified && !card.session.mgmtAuthenticated && card.session.pendingWitness.None?
  }

  predicate Quiet(shares: seq<Share>, cards: seq<C.Card>) {
    forall i: nat :: i < |shares| && i < |cards| && shares[i].openHandles == 0 ==> Sessionless(cards[i])
  }

  ghost predicate Books(shares: seq<Share>, conns: Conns, minted: nat) {
    Counted(shares, conns) && Held(shares, conns) && Distinct(conns) && AllMinted(conns, minted)
  }

  ghost predicate Inv(s: State) {
    Shaped(s) && Books(s.shares, s.conns, s.minted) && WaitersOwn(s.waiting, s.conns) && Quiet(s.shares, s.cards)
  }

  // --- how the books change ------------------------------------------------------------

  lemma FreshHandle(conns: Conns, n: nat, h: int)
    requires AllMinted(conns, n) && n < TWO_32 && h == I32(n + 1)
    ensures forall c :: c in conns ==> h !in conns[c]
  {
    forall k: nat | 1 <= k <= n ensures I32(k) != h {
      assert k % TWO_32 == k;
    }
    assert !MintedBefore(h, n);
  }

  lemma AddHandle(conns: Conns, c: nat, h: int, i: nat, j: nat)
    requires c in conns && h !in conns[c]
    ensures HandlesOn(conns[c := Bind(conns[c], h, i)], j) == HandlesOn(conns, j) + (if i == j then {(c, h)} else {})
    ensures (c, h) !in HandlesOn(conns, j)
  {
    var conns' := conns[c := Bind(conns[c], h, i)];
    forall d, g ensures (d, g) in HandlesOn(conns', j) <==> (d, g) in HandlesOn(conns, j) || (i == j && (d, g) == (c, h)) {}
  }

  lemma RemoveHandle(conns: Conns, c: nat, h: int, j: nat)
    requires c in conns && h in conns[c]
    ensures HandlesOn(conns[c := conns[c] - {h}], j) == HandlesOn(conns, j) - {(c, h)}
    ensures (c, h) in HandlesOn(conns, j) <==> conns[c][h] == j
  {
    var conns' := conns[c := conns[c] - {h}];
    forall d, g ensures (d, g) in HandlesOn(conns', j) <==> (d, g) in HandlesOn(conns, j) && (d, g) != (c, h) {}
  }

  lemma SameHandles(conns: Conns, conns': Conns, j: nat)
    requires forall c, h :: (c in conns && h in conns[c]) <==> (c in conns' && h in conns'[c])
    requires forall c, h :: c in conns && h in conns[c] ==> conns[c][h] == conns'[c][h]
    ensures HandlesOn(conns, j) == HandlesOn(conns', j)
  {
    forall d, g ensures (d, g) in HandlesOn(conns, j) <==> (d, g) in HandlesOn(conns', j) {}
  }

  lemma CountedAfterOpening(shares: seq<Share>, conns: Conns, c: nat, h: int, i: nat)
    requires Counted(shares, conns) && c in conns && i < |shares| && h !in conns[c]
    ensures Counted(shares[i := shares[i].(openHandles := shares[i].openHandles + 1)], conns[c := Bind(conns[c], h, i)])
  {
    hide HandlesOn;
    forall j: nat | j < |shares| { AddHandle(conns, c, h, i, j); }
  }

  lemma CountedAfterClosing(shares: seq<Share>, conns: Conns, c: nat, h: int, holder: Option<int>)
    requires Counted(shares, conns) && c in conns && h in conns[c] && conns[c][h] < |shares|
    ensures var i := conns[c][h];
            && shares[i].openHandles > 0
            && Counted(shares[i := Share(shares[i].openHandles - 1, holder)], conns[c := conns[c] - {h}])
  {
    hide HandlesOn;
    RemoveHandle(conns, c, h, conns[c][h]);
    assert HandlesOn(conns, conns[c][h]) != {};
    forall j: nat | j < |shares| { RemoveHandle(conns, c, h, j); }
  }

  lemma HeldKept(shares: seq<Share>, conns: Conns, shares': seq<Share>, conns': Conns)
    requires Held(shares, conns) && |shares'| == |shares|
    requires forall i: nat :: i < |shares| && shares'[i].holder.Some? ==>
               && shares[i].holder == shares'[i].holder
               && forall c :: c in conns && shares[i].holder.value in conns[c] ==>
                    c in conns' && shares[i].holder.value in conns'[c] && conns'[c][shares[i].holder.value] == conns[c][shares[i].holder.value]
    ensures Held(shares', conns')
  {
    forall j: nat | j < |shares| && shares'[j].holder.Some? ensures LiveOn(conns', shares'[j].holder.value, j) {
      var h := shares[j].holder.value;
      assert LiveOn(conns, h, j);
      var d :| d in conns && h in conns[d] && conns[d][h] == j;
      assert d in conns' && h in conns'[d] && conns'[d][h] == j;
    }
  }

  lemma MintedLater(conns: Conns, minted: nat, c: nat, i: nat)
    requires AllMinted(conns, minted) && c in conns
    ensures AllMinted(conns[c := Bind(conns[c], I32(minted + 1), i)], minted + 1)
  {
    var conns' := conns[c := Bind(conns[c], I32(minted + 1), i)];
    forall d, g | d in conns' && g in conns'[d] ensures MintedBefore(g, minted + 1) {
      if g == I32(minted + 1) {
        assert 1 <= minted + 1 <= minted + 1;
      } else {
        assert d in conns && g in conns[d] && MintedBefore(g, minted);
        var k: nat :| 1 <= k <= minted && g == I32(k);
      }
    }
  }

  lemma BooksAfterOpening(shares: seq<Share>, conns: Conns, minted: nat, c: nat, i: nat)
    requires Books(shares, conns, minted) && c in conns && i < |shares|
    requires forall d :: d in conns ==> I32(minted + 1) !in conns[d]
    ensures Books(shares[i := shares[i].(openHandles := shares[i].openHandles + 1)],
                  conns[c := Bind(conns[c], I32(minted + 1), i)], minted + 1)
  {
    hide I32;
    var h := I32(minted + 1);
    var shares' := shares[i := shares[i].(openHandles := shares[i].openHandles + 1)];
    CountedAfterOpening(shares, conns, c, h, i);
    MintedLater(conns, minted, c, i);
    HeldKept(shares, conns, shares', conns[c := Bind(conns[c], h, i)]);
  }

  lemma BooksAfterClosing(shares: seq<Share>, conns: Conns, minted: nat, c: nat, h: int)
    requires Books(shares, conns, minted) && c in conns && h in conns[c] && conns[c][h] < |shares|
    ensures var i := conns[c][h];
            && shares[i].openHandles > 0
            && Books(shares[i := Share(shares[i].openHandles - 1,
                                       if shares[i].holder == Some(h) then None else shares[i].holder)],
                     conns[c := conns[c] - {h}], minted)
  {
    var i := conns[c][h];
    var holder := if shares[i].holder == Some(h) then None else shares[i].holder;
    CountedAfterClosing(shares, conns, c, h, holder);
    var shares' := shares[i := Share(shares[i].openHandles - 1, holder)];
    forall j: nat | j < |shares| && shares[j].holder == Some(h) ensures j == i {
      assert LiveOn(conns, h, j);
    }
    HeldKept(shares, conns, shares', conns[c := conns[c] - {h}]);
  }

  lemma BooksAfterHolding(shares: seq<Share>, conns: Conns, minted: nat, i: nat, holder: Option<int>)
    requires Books(shares, conns, minted) && i < |shares|
    ensures Books(shares[i := shares[i].(holder := holder)], conns, minted) <==> (holder.Some? ==> LiveOn(conns, holder.value, i))
  {
    var shares' := shares[i := shares[i].(holder := holder)];
    if Held(shares', conns) && holder.Some? { assert shares'[i].holder.Some?; }
  }

  lemma BooksAfterRewiring(shares: seq<Share>, conns: Conns, conns': Conns, minted: nat)
    requires Books(shares, conns, minted)
    requires forall c, h :: (c in conns && h in conns[c]) <==> (c in conns' && h in conns'[c])
    requires forall c, h :: c in conns && h in conns[c] ==> conns[c][h] == conns'[c][h]
    ensures Books(shares, conns', minted)
  {
    forall j: nat | j < |shares| ensures shares[j].openHandles == |HandlesOn(conns', j)| {
      SameHandles(conns, conns', j);
    }
    HeldKept(shares, conns, shares, conns');
  }

  // --- each operation keeps the invariant -------------------------------------------------

  /** The one thing a new handle needs: that its value, after wrapping, is not in use. */
  predicate HandleIsFree(s: State) { forall c :: c in s.conns ==> I32(s.minted + 1) !in s.conns[c] }

  lemma PoweringKeepsSessionless(chip: C.Chip, card: C.Card)
    ensures Sessionless(Powered(chip, card)) == Sessionless(card)
  {
  }

  lemma ConnectKeepsInv(chip: C.Chip, s: State, c: nat, name: Bytes)
    requires Inv(s) && c in s.conns && (AfterConnect(chip, s, c, name).1.Opened? ==> HandleIsFree(s))
    ensures Inv(AfterConnect(chip, s, c, name).0)
  {
    hide Books, I32, Position, C.Step;
    if AfterConnect(chip, s, c, name).1.Opened? {
      PoweringKeepsSessionless(chip, s.cards[ReaderFor(s.names, name).value]);
      BooksAfterOpening(s.shares, s.conns, s.minted, c, ReaderFor(s.names, name).value);
    }
  }

  /** Rebinding a handle this connection still has open loses a handle without losing its count. */
  lemma CountLostByReuse(shares: seq<Share>, conns: Conns, c: nat, h: int, i: nat)
    requires Counted(shares, conns) && c in conns && h in conns[c] && i < |shares| && conns[c][h] < |shares|
    ensures !Counted(shares[i := shares[i].(openHandles := shares[i].openHandles + 1)], conns[c := Bind(conns[c], h, i)])
  {
    hide HandlesOn;
    var j := conns[c][h];
    var shares' := shares[i := shares[i].(openHandles := shares[i].openHandles + 1)];
    RemoveHandle(conns, c, h, j);
    var without := conns[c := conns[c] - {h}];
    AddHandle(without, c, h, i, j);
    assert Bind(without[c], h, i) == Bind(conns[c], h, i);
    assert without[c := Bind(without[c], h, i)] == conns[c := Bind(conns[c], h, i)];
    assert shares[j].openHandles == |HandlesOn(conns, j)|;
    assert shares'[j].openHandles != |HandlesOn(conns[c := Bind(conns[c], h, i)], j)|;
  }

  /** Exactly: a connect that opens a handle keeps the books when the wrapped handle value is not in use. */
  lemma ConnectKeepsInvIffHandleIsFree(chip: C.Chip, s: State, c: nat, name: Bytes)
    requires Inv(s) && c in s.conns
    ensures Inv(AfterConnect(chip, s, c, name).0) <==> (AfterConnect(chip, s, c, name).1.Opened? ==> HandleIsFree(s))
  {
    hide I32, Position, C.Step, Counted, Held, AllMinted, WaitersOwn, Quiet;
    var (s', reply) := AfterConnect(chip, s, c, name);
    if reply.Opened? ==> HandleIsFree(s) {
      ConnectKeepsInv(chip, s, c, name);
    } else {
      var h, i := I32(s.minted + 1), ReaderFor(s.names, name).value;
      var d :| d in s.conns && h in s.conns[d];
      if d == c {
        CountLostByReuse(s.shares, s.conns, c, h, i);
      } else {
        assert h in s'.conns[c] && h in s'.conns[d];
      }
    }
  }

  lemma CloseKeepsInv(chip: C.Chip, s: State, c: nat, h: int, disposition: nat)
    requires Inv(s) && c in s.conns && c !in s.waiting
    ensures Inv(AfterClose(chip, s, c, h, disposition).0)
  {
    hide Books;
    if h in s.conns[c] { BooksAfterClosing(s.shares, s.conns, s.minted, c, h); }
  }

  lemma ReconnectKeepsInv(chip: C.Chip, s: State, c: nat, h: int, initialization: nat)
    requires Inv(s) && c in s.conns
    ensures Inv(AfterReconnect(chip, s, c, h, initialization).0)
  {
    hide Books;
  }

  lemma EndKeepsInv(chip: C.Chip, s: State, c: nat, h: int, disposition: nat)
    requires Inv(s) && c in s.conns
    ensures Inv(AfterEnd(chip, s, c, h, disposition).0)
  {
    hide Books;
    BooksAfterHolding(s.shares, s.conns, s.minted, BackendOf(s.conns[c], h), None);
  }

  /** Exactly: a granted transaction keeps the books when the handle is live on the card it resolves to. */
  lemma BeginKeepsInvIffLive(s: State, c: nat, h: int)
    requires Inv(s) && c in s.conns
    ensures var i := BackendOf(s.conns[c], h);
            Inv(AfterBegin(s, c, h).0) <==> (Admits(s.shares[i], h) ==> LiveOn(s.conns, h, i))
  {
    hide Books;
    BooksAfterHolding(s.shares, s.conns, s.minted, BackendOf(s.conns[c], h), Some(h));
  }

  lemma AttemptKeepsInv(chip: C.Chip, s: State, c: nat, w: Wait, now: int, drawn: Bytes)
    requires Inv(s) && c in s.conns && w.handle in s.conns[c] && s.conns[c][w.handle] == w.reader
    ensures Inv(Attempt(chip, s, c, w, now, drawn).0)
  {
    hide HandlesOn, C.Step;
    assert (c, w.handle) in HandlesOn(s.conns, w.reader) by { RemoveHandle(s.conns, c, w.handle, w.reader); }
    assert HandlesOn(s.conns, w.reader) != {};
    assert s.shares[w.reader].openHandles > 0;
  }

  lemma ControlKeepsSessionless(chip: C.Chip, card: C.Card, change: C.CardOp)
    requires Sessionless(card) && FromControlSocket(change)
    ensures Sessionless(C.Step(chip, card, change).0)
  {
    hide C.Dispatch;
  }

  lemma ControlKeepsInv(chip: C.Chip, s: State, reader: nat, change: C.CardOp)
    requires Inv(s) && Enabled(s, Control(reader, change))
    ensures Inv(Server.Step(chip, s, Control(reader, change)).0)
  {
    hide Books, C.Step;
    if Sessionless(s.cards[reader]) { ControlKeepsSessionless(chip, s.cards[reader], change); }
  }

  lemma ClosedTable(chip: C.Chip, s: State, c: nat, h: int, disposition: nat)
    requires Shaped(s) && c in s.conns
    ensures var s' := AfterClose(chip, s, c, h, disposition).0;
            && s'.waiting == s.waiting && s'.minted == s.minted && s'.names == s.names
            && s'.conns == s.conns[c := s.conns[c] - {h}]
  {
    hide C.Step;
    if h !in s.conns[c] { assert s.conns[c] - {h} == s.conns[c]; }
  }

  /** What closing a list of a connection's handles leaves of its table. */
  lemma {:induction false} CloseAllKeepsInv(chip: C.Chip, s: State, c: nat, order: seq<int>)
    requires Inv(s) && c in s.conns && c !in s.waiting
    ensures Inv(CloseAll(chip, s, c, order))
    ensures var s' := CloseAll(chip, s, c, order);
            && s'.waiting == s.waiting && s'.minted == s.minted && s'.names == s.names
            && s'.conns == s.conns[c := s'.conns[c]]
            && forall h :: h in s'.conns[c] <==> h in s.conns[c] && h !in order
  {
    hide Books, WaitersOwn, Quiet, AfterClose;
    if order != [] {
      var n := |order| - 1;
      CloseAllKeepsInv(chip, s, c, order[..n]);
      ClosedTable(chip, CloseAll(chip, s, c, order[..n]), c, order[n], C.DISPOSITION_LEAVE);
      CloseKeepsInv(chip, CloseAll(chip, s, c, order[..n]), c, order[n], C.DISPOSITION_LEAVE);
      assert order == order[..n] + [order[n]];
    }
  }

  lemma HangUpKeepsInv(chip: C.Chip, s: State, c: nat, order: seq<int>)
    requires Inv(s) && Enabled(s, HangUp(c, order))
    ensures Inv(Server.Step(chip, s, HangUp(c, order)).0)
  {
    hide Books, CloseAll;
    CloseAllKeepsInv(chip, s, c, order);
    var closed := CloseAll(chip, s, c, order);
    assert Lists(s.conns[c], order);
    forall h ensures h !in closed.conns[c] {}
    BooksAfterRewiring(closed.shares, closed.conns, closed.conns - {c}, closed.minted);
  }

  lemma AcceptKeepsInv(chip: C.Chip, s: State, c: nat)
    requires Inv(s) && Enabled(s, Accept(c))
    ensures Inv(Server.Step(chip, s, Accept(c)).0)
  {
    hide Books;
    BooksAfterRewiring(s.shares, s.conns, s.conns[c := map[]], s.minted);
  }

  /** The counter wraps: the connect after 2^32 of them reuses the first handle, even one still open. */
  lemma OldestHandleIsReused(chip: C.Chip, s: State, c: nat, name: Bytes, d: nat)
    requires Inv(s) && s.minted == TWO_32 && c in s.conns && d in s.conns && I32(1) in s.conns[d]
    requires AfterConnect(chip, s, c, name).1.Opened?
    ensures AfterConnect(chip, s, c, name).1 == Opened(1) && !Inv(AfterConnect(chip, s, c, name).0)
  {
    hide Inv, AfterConnect;
    assert I32(TWO_32 + 1) == I32(1) == 1;
    ConnectKeepsInvIffHandleIsFree(chip, s, c, name);
    MintsNext(chip, s, c, name);
  }

  lemma MintsNext(chip: C.Chip, s: State, c: nat, name: Bytes)
    requires Inv(s) && c in s.conns && AfterConnect(chip, s, c, name).1.Opened?
    ensures AfterConnect(chip, s, c, name).1 == Opened(I32(s.minted + 1))
  {
  }

  lemma MintedHandleIsFree(s: State)
    requires Inv(s) && s.minted < TWO_32
    ensures HandleIsFree(s)
  {
    FreshHandle(s.conns, s.minted, I32(s.minted + 1));
  }

  /** One step of any interleaving, by clients that name only their own handles. */
  lemma StepKeepsInv(chip: C.Chip, s: State, op: Op)
    requires Inv(s) && Enabled(s, op) && OwnHandles(s, op) && Server.Step(chip, s, op).0.minted <= TWO_32
    ensures Inv(Server.Step(chip, s, op).0)
  {
    hide I32, C.Step, HandlesOn, Books;
    match op
    case Accept(c) => AcceptKeepsInv(chip, s, c);
    case Connect(c, name) =>
      if s.minted < TWO_32 { MintedHandleIsFree(s); }
      ConnectKeepsInv(chip, s, c, name);
    case Reconnect(c, h, initialization) => ReconnectKeepsInv(chip, s, c, h, initialization);
    case Close(c, h, disposition) => CloseKeepsInv(chip, s, c, h, disposition);
    case Begin(c, h) => BeginKeepsInvIffLive(s, c, h);
    case End(c, h, disposition) => EndKeepsInv(chip, s, c, h, disposition);
    case Transmit(c, h, apdu, now, drawn) =>
      AttemptKeepsInv(chip, s, c, Wait(h, BackendOf(s.conns[c], h), apdu), now, drawn);
    case Retry(c, now, drawn) => AttemptKeepsInv(chip, s, c, s.waiting[c], now, drawn);
    case GiveUp(c) =>
    case HangUp(c, order) => HangUpKeepsInv(chip, s, c, order);
    case Control(reader, change) => ControlKeepsInv(chip, s, reader, change);
  }

  // --- whole runs ---------------------------------------------------------------------------

  /** An operation that is not possible in a state does not happen. */
  function Next(chip: C.Chip, s: State, op: Op): State {
    if Shaped(s) && Enabled(s, op) then Server.Step(chip, s, op).0 else s
  }

  function Run(chip: C.Chip, s: State, ops: seq<Op>): State {
    if ops == [] then s else Next(chip, Run(chip, s, ops[..|ops| - 1]), ops[|ops| - 1])
  }

  lemma RunOneMore(chip: C.Chip, s: State, ops: seq<Op>, op: Op)
    ensures Run(chip, s, ops + [op]) == Next(chip, Run(chip, s, ops), op)
  {
    hide Next;
    assert (ops + [op])[..|ops|] == ops;
  }

  predicate Initial(s: State) {
    && Shaped(s) && s.conns == map[] && s.waiting == map[] && s.minted == 0
    && (forall share :: share in s.shares ==> share == Share(0, None))
    && (forall card :: card in s.cards ==> Sessionless(card))
  }

  /** Every client names only its own handles, and fewer than 2^32 handles were opened before the last. */
  predicate OwnRun(chip: C.Chip, s: State, ops: seq<Op>) {
    && (forall k {:trigger ops[k]} :: 0 <= k < |ops| ==> OwnHandles(Run(chip, s, ops[..k]), ops[k]))
    && Run(chip, s, ops).minted <= TWO_32
  }

  lemma OwnRunPrefix(chip: C.Chip, s: State, ops: seq<Op>)
    requires ops != [] && OwnRun(chip, s, ops)
    ensures OwnRun(chip, s, ops[..|ops| - 1]) && OwnHandles(Run(chip, s, ops[..|ops| - 1]), ops[|ops| - 1])
  {
    hide OwnHandles, Run;
    var n := |ops| - 1;
    forall k | 0 <= k < n ensures OwnHandles(Run(chip, s, ops[..n][..k]), ops[..n][k]) {
      assert ops[..n][..k] == ops[..k] && ops[..n][k] == ops[k];
    }
    assert OwnHandles(Run(chip, s, ops[..n]), ops[n]);
    MintedGrows(chip, s, ops);
  }

  lemma {:induction false} RunAppends(chip: C.Chip, s: State, first: seq<Op>, later: seq<Op>)
    ensures Run(chip, s, first + later) == Run(chip, Run(chip, s, first), later)
  {
    hide Next;
    if later == [] {
      assert first + later == first;
    } else {
      var n := |later| - 1;
      assert (first + later)[..|first| + n] == first + later[..n];
      RunAppends(chip, s, first, later[..n]);
    }
  }

  lemma OwnRunAppends(chip: C.Chip, s: State, first: seq<Op>, later: seq<Op>)
    requires OwnRun(chip, s, first) && OwnRun(chip, Run(chip, s, first), later)
    ensures OwnRun(chip, s, first + later)
  {
    hide OwnHandles, Run;
    var ops := first + later;
    RunAppends(chip, s, first, later);
    forall k | 0 <= k < |ops| ensures OwnHandles(Run(chip, s, ops[..k]), ops[k]) {
      if k < |first| {
        assert ops[..k] == first[..k] && ops[k] == first[k];
      } else {
        var m := k - |first|;
        assert ops[..k] == first + later[..m] && ops[k] == later[m];
        RunAppends(chip, s, first, later[..m]);
      }
    }
  }

  lemma OwnRunOneMore(chip: C.Chip, s: State, ops: seq<Op>, op: Op)
    requires OwnRun(chip, s, ops) && OwnHandles(Run(chip, s, ops), op) && Run(chip, s, ops + [op]).minted <= TWO_32
    ensures OwnRun(chip, s, ops + [op])
  {
    hide OwnHandles, Run;
    var n := |ops|;
    forall k | 0 <= k <= n ensures OwnHandles(Run(chip, s, (ops + [op])[..k]), (ops + [op])[k]) {
      if k < n {
        assert OwnHandles(Run(chip, s, ops[..k]), ops[k]);
        assert (ops + [op])[..k] == ops[..k];
      } else {
        assert (ops + [op])[..k] == ops;
      }
    }
  }

  /** Operations that name no handle, or may name any, are always a client's own. */
  lemma UnnamedIsOwn(chip: C.Chip, s: State, ops: seq<Op>)
    requires forall op :: op in ops ==> op.Accept? || op.Connect? || op.Close? || op.Control?
    requires Run(chip, s, ops).minted <= TWO_32
    ensures OwnRun(chip, s, ops)
  {
    hide Run;
    forall k | 0 <= k < |ops| ensures OwnHandles(Run(chip, s, ops[..k]), ops[k]) {
      assert ops[k] in ops;
    }
  }

  lemma OwnRunOfThree(chip: C.Chip, s: State, o1: Op, o2: Op, o3: Op)
    requires OwnHandles(s, o1) && OwnHandles(Next(chip, s, o1), o2) && OwnHandles(Next(chip, Next(chip, s, o1), o2), o3)
    requires Next(chip, Next(chip, Next(chip, s, o1), o2), o3).minted <= TWO_32
    ensures OwnRun(chip, s, [o1, o2, o3])
  {
    hide OwnHandles, Next;
    RunOfThree(chip, s, o1, o2, o3);
    RunOfTwo(chip, s, o1, o2);
    RunOneMore(chip, s, [], o1);
    var ops := [o1, o2, o3];
    assert ops[..0] == [] && ops[..1] == [] + [o1] && ops[..2] == [o1, o2];
    forall k | 0 <= k < 3 ensures OwnHandles(Run(chip, s, ops[..k]), ops[k]) {
      assert k == 0 || k == 1 || k == 2;
    }
  }

  lemma RunOfTwo(chip: C.Chip, s: State, o1: Op, o2: Op)
    ensures Run(chip, s, [o1, o2]) == Next(chip, Next(chip, s, o1), o2)
  {
    hide Next;
    assert [o1, o2] == [o1] + [o2] && [o1] == [] + [o1];
    RunOneMore(chip, s, [o1], o2);
    RunOneMore(chip, s, [], o1);
  }

  lemma RunOfThree(chip: C.Chip, s: State, o1: Op, o2: Op, o3: Op)
    ensures Run(chip, s, [o1, o2, o3]) == Next(chip, Next(chip, Next(chip, s, o1), o2), o3)
  {
    hide Next;
    assert [o1, o2, o3] == [o1, o2] + [o3];
    RunOfTwo(chip, s, o1, o2);
    RunOneMore(chip, s, [o1, o2], o3);
  }

  lemma MintedGrows(chip: C.Chip, s: State, ops: seq<Op>)
    requires ops != []
    ensures Run(chip, s, ops[..|ops| - 1]).minted <= Run(chip, s, ops).minted
  {
    var before, op := Run(chip, s, ops[..|ops| - 1]), ops[|ops| - 1];
    if Shaped(before) && Enabled(before, op) {
      StepNeverUnmints(chip, before, op);
    }
  }

  lemma StepNeverUnmints(chip: C.Chip, s: State, op: Op)
    requires Shaped(s) && Enabled(s, op)
    ensures s.minted <= Server.Step(chip, s, op).0.minted
  {
    hide C.Step, I32, Position;
    if op.HangUp? { CloseAllMintsNothing(chip, s, op.c, op.order); }
  }

  lemma {:induction false} CloseAllMintsNothing(chip: C.Chip, s: State, c: nat, order: seq<int>)
    requires Shaped(s) && c in s.conns
    ensures CloseAll(chip, s, c, order).minted == s.minted
  {
    hide AfterClose;
    if order != [] {
      CloseAllMintsNothing(chip, s, c, order[..|order| - 1]);
      ClosedTable(chip, CloseAll(chip, s, c, order[..|order| - 1]), c, order[|order| - 1], C.DISPOSITION_LEAVE);
    }
  }

  lemma {:induction false} InvOverRuns(chip: C.Chip, s: State, ops: seq<Op>)
    requires Inv(s) && OwnRun(chip, s, ops)
    ensures Inv(Run(chip, s, ops))
  {
    hide Inv, Server.Step, OwnHandles, OwnRun;
    if ops != [] {
      var before := Run(chip, s, ops[..|ops| - 1]);
      OwnRunPrefix(chip, s, ops);
      InvOverRuns(chip, s, ops[..|ops| - 1]);
      assert Run(chip, s, ops).minted <= TWO_32 by { OwnRunIsShort(chip, s, ops); }
      if Shaped(before) && Enabled(before, ops[|ops| - 1]) { StepKeepsInv(chip, before, ops[|ops| - 1]); }
    }
  }

  lemma OwnRunIsShort(chip: C.Chip, s: State, ops: seq<Op>)
    requires OwnRun(chip, s, ops)
    ensures Run(chip, s, ops).minted <= TWO_32
  {
  }

  lemma InitialIsInv(s: State)
    requires Initial(s)
    ensures Inv(s)
  {
    forall i: nat | i < |s.shares| ensures HandlesOn(s.conns, i) == {} && s.shares[i] == Share(0, None) {
      assert s.shares[i] in s.shares;
    }
    forall i: nat | i < |s.cards| ensures Sessionless(s.cards[i]) {
      assert s.cards[i] in s.cards;
    }
  }

  lemma ClientArrives(chip: C.Chip, s: State, d: nat)
    requires Shaped(s) && d !in s.conns && d !in s.waiting
    ensures Next(chip, s, Accept(d)) == s.(conns := s.conns[d := map[]]) && Shaped(Next(chip, s, Accept(d)))
  {
  }

  lemma ClientConnects(chip: C.Chip, s: State, d: nat, name: Bytes, i: nat)
    requires Shaped(s) && d in s.conns && d !in s.waiting
    requires ReaderFor(s.names, name) == Some(i) && i < |s.cards| && s.cards[i].inserted
    ensures var t := Next(chip, s, Connect(d, name));
            && Shaped(t) && t.names == s.names && t.waiting == s.waiting && t.minted == s.minted + 1
            && t.conns == s.conns[d := Bind(s.conns[d], I32(s.minted + 1), i)]
            && t.shares == s.shares[i := s.shares[i].(openHandles := s.shares[i].openHandles + 1)]
            && t.cards == s.cards[i := if s.shares[i].openHandles == 0 then Powered(chip, s.cards[i]) else s.cards[i]]
            && t.cards[i].inserted
  {
    hide C.Dispatch, I32, ReaderFor;
    assert s.cards[i := s.cards[i]] == s.cards;
  }

  /**
   * In every reachable state: the open-handle count of a card is the number of live handles
   * bound to it over all connections, no handle value is live twice, a transaction's holder
   * is a live handle of that card, and a card no handle is open on carries no PIN
   * verification, no admin authentication and no challenge.
   */
  lemma HandlesAndTransactionsAreAccounted(chip: C.Chip, s: State, ops: seq<Op>)
    requires Initial(s) && OwnRun(chip, s, ops)
    ensures var s' := Run(chip, s, ops);
            && Shaped(s') && Counted(s'.shares, s'.conns) && Distinct(s'.conns) && Held(s'.shares, s'.conns)
            && Quiet(s'.shares, s'.cards)
  {
    hide Run, OwnRun, I32, Initial;
    InitialIsInv(s);
    InvOverRuns(chip, s, ops);
  }
}
