/** What the server's commands do to the card session of the card they are about (crates/fibby/src/server.rs, virtual_card.rs). */
module ServerSessions {
  import opened Base
  import opened Server
  import opened ServerHistory
  import opened ServerIsolation
  import C = Card

  /** No applet selected, nothing verified, nobody authenticated, no challenge; everything else as it was. */
  predicate SessionLost(before: C.Card, after: C.Card) {
    && !after.session.selectedPiv && !after.session.selectedOtp && !after.session.pinVerified
    && after.session.pendingWitness.None? && !after.session.mgmtAuthenticated
    && after.session.powered == before.session.powered && after.session.commandSinceVerify == before.session.commandSinceVerify
    && after == before.(session := after.session)
  }

  /** On, with no applet selected; everything else as it was. */
  predicate PoweredUp(before: C.Card, after: C.Card) {
    && after.session.powered && !after.session.selectedPiv && !after.session.selectedOtp
    && after.session.pinVerified == before.session.pinVerified && after.session.commandSinceVerify == before.session.commandSinceVerify
    && after.session.pendingWitness == before.session.pendingWitness
    && after.session.mgmtAuthenticated == before.session.mgmtAuthenticated
    && after == before.(session := after.session)
  }

  /** Off, and the session lost. */
  predicate PoweredDown(before: C.Card, after: C.Card) {
    && !after.session.powered
    && SessionLost(before, after.(session := after.session.(powered := before.session.powered)))
  }

  /** Only card `i` and its share can differ. */
  predicate OnlyAt(s: State, s': State, i: nat) {
    && |s'.cards| == |s.cards| && |s'.shares| == |s.shares|
    && (forall j: nat :: j < |s.cards| && j != i ==> s'.cards[j] == s.cards[j])
    && (forall j: nat :: j < |s.shares| && j != i ==> s'.shares[j] == s.shares[j])
  }

  /**
   * The holder's end-transaction frees the card; with reset or unpower (1 and 2) the card's session is
   * lost with it, otherwise the card stays as it is. Nothing else changes.
   */
  lemma HolderEndsTransaction(chip: C.Chip, s: State, c: nat, h: int, disposition: nat)
    requires Shaped(s) && HoldsCard(s, c, h)
    ensures var s' := AfterEnd(chip, s, c, h, disposition).0;
            var i := s.conns[c][h];
            && OnlyAt(s, s', i) && s'.conns == s.conns && s'.waiting == s.waiting
            && s'.shares[i] == Share(s.shares[i].openHandles, None)
            && (if disposition == 1 || disposition == 2 then SessionLost(s.cards[i], s'.cards[i]) else s'.cards[i] == s.cards[i])
  {
    hide C.Dispatch;
  }

  /** The first handle on a card powers it up, a later one leaves it as it is; either way it is counted. */
  lemma ConnectingPowersUp(chip: C.Chip, s: State, c: nat, name: Bytes)
    requires Shaped(s) && c in s.conns && AfterConnect(chip, s, c, name).1.Opened?
    ensures ReaderFor(s.names, name).Some? && ReaderFor(s.names, name).value < |s.cards|
    ensures var s' := AfterConnect(chip, s, c, name).0;
            var i := ReaderFor(s.names, name).value;
            && OnlyAt(s, s', i) && s.cards[i].inserted
            && s'.shares[i] == Share(s.shares[i].openHandles + 1, s.shares[i].holder)
            && (if s.shares[i].openHandles == 0 then PoweredUp(s.cards[i], s'.cards[i]) else s'.cards[i] == s.cards[i])
  {
    hide C.Dispatch, I32, Position;
  }

  /** A reconnect powers a card up that nobody else has open; on a shared one only reset or unpower touches it, and costs the session. */
  lemma ReconnectingPowersUp(chip: C.Chip, s: State, c: nat, h: int, initialization: nat)
    requires Shaped(s) && c in s.conns && h in s.conns[c]
    ensures var s' := AfterReconnect(chip, s, c, h, initialization).0;
            var i := s.conns[c][h];
            && OnlyAt(s, s', i) && s'.shares == s.shares && s'.conns == s.conns
            && (if s.shares[i].openHandles <= 1 then PoweredUp(s.cards[i], s'.cards[i])
                else if initialization == 1 || initialization == 2 then SessionLost(s.cards[i], s'.cards[i])
                else s'.cards[i] == s.cards[i])
  {
    hide C.Dispatch;
  }

  /** The last handle to close powers the card down; before that only reset or unpower touches it, and costs the session. */
  lemma ClosingPowersDown(chip: C.Chip, s: State, c: nat, h: int, disposition: nat)
    requires Shaped(s) && c in s.conns && h in s.conns[c] && s.shares[s.conns[c][h]].openHandles > 0
    ensures var s' := AfterClose(chip, s, c, h, disposition).0;
            var i := s.conns[c][h];
            && OnlyAt(s, s', i) && s'.shares[i].openHandles == s.shares[i].openHandles - 1
            && s'.shares[i].holder == (if s.shares[i].holder == Some(h) then None else s.shares[i].holder)
            && (if s.shares[i].openHandles == 1 then PoweredDown(s.cards[i], s'.cards[i])
                else if disposition == 1 || disposition == 2 then SessionLost(s.cards[i], s'.cards[i])
                else s'.cards[i] == s.cards[i])
  {
    hide C.Dispatch;
  }
}
