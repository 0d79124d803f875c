/**
 * The server as an object whose command handlers update its tables step by step
 * (crates/fibby/src/server.rs). Every method is proved against `Server`.
 */
module PcscServer {
  import opened Base
  import opened S = Server
  import C = Card

  class PcscServer {
    const chip: C.Chip
    const names: seq<Bytes>
    var cards: seq<C.Card>
    var shares: seq<Share>
    var conns: map<nat, Handles>
    var waiting: map<nat, Wait>
    var minted: nat

    function State(): S.State
      reads this
    {
      S.State(names, cards, shares, conns, waiting, minted)
    }

    /** One reader per card; no client yet. */
    constructor (chip: C.Chip, names: seq<Bytes>, cards: seq<C.Card>)
      requires cards != [] && |names| == |cards|
      ensures this.chip == chip && Shaped(State())
      ensures State() == S.State(names, cards, seq(|cards|, _ => Share(0, None)), map[], map[], 0)
    {
      this.chip, this.names, this.cards := chip, names, cards;
      shares := seq(|cards|, _ => Share(0, None));
      conns, waiting, minted := map[], map[], 0;
    }

    method MintCard(c: nat, reader: nat) returns (h: int)
      requires c in conns
      modifies `minted, `conns
      ensures h == I32(old(minted) + 1) && minted == old(minted) + 1
      ensures conns == old(conns)[c := Bind(old(conns)[c], h, reader)]
    {
      minted := minted + 1;
      h := I32(minted);
      conns := conns[c := Bind(conns[c], h, reader)];
    }

    method Connect(c: nat, name: Bytes) returns (reply: Reply)
      requires Shaped(State()) && c in conns
      modifies this
      ensures (State(), reply) == AfterConnect(chip, old(State()), c, name)
    {
      hide C.Step, I32;
      var found := ReaderFor(names, name);
      if found.None? { return UnknownReader; }
      var i := found.value;
      if !cards[i].inserted { return NoSmartcard; }
      if shares[i].openHandles == 0 {
        cards := cards[i := Powered(chip, cards[i])];
      }
      shares := shares[i := shares[i].(openHandles := shares[i].openHandles + 1)];
      var h := MintCard(c, i);
      return Opened(h);
    }

    method Reconnect(c: nat, h: int, initialization: nat) returns (reply: Reply)
      requires Shaped(State()) && c in conns
      modifies `cards
      ensures (State(), reply) == AfterReconnect(chip, old(State()), c, h, initialization)
    {
      hide C.Step;
      var i := BackendOf(conns[c], h);
      var sole := shares[i].openHandles <= 1;
      if sole {
        cards := cards[i := Powered(chip, cards[i])];
      } else if initialization == C.DISPOSITION_RESET || initialization == C.DISPOSITION_UNPOWER {
        cards := cards[i := Ended(chip, cards[i], initialization)];
      }
      return Done;
    }

    method CloseHandle(c: nat, h: int, disposition: nat) returns (reply: Reply)
      requires Shaped(State()) && c in conns
      modifies `cards, `shares, `conns
      ensures (State(), reply) == AfterClose(chip, old(State()), c, h, disposition)
    {
      hide C.Step;
      if h !in conns[c] { return InvalidHandle; }
      var i := conns[c][h];
      conns := conns[c := conns[c] - {h}];
      if shares[i].holder == Some(h) {
        shares := shares[i := shares[i].(holder := None)];
      }
      shares := shares[i := shares[i].(openHandles := if shares[i].openHandles == 0 then 0 else shares[i].openHandles - 1)];
      if shares[i].openHandles == 0 {
        cards := cards[i := C.PowerOff(cards[i])];
      } else if disposition == C.DISPOSITION_RESET || disposition == C.DISPOSITION_UNPOWER {
        cards := cards[i := Ended(chip, cards[i], disposition)];
      }
      assert shares == old(shares)[i := shares[i]] && cards == old(cards)[i := cards[i]];
      return Done;
    }

    method BeginTransaction(c: nat, h: int) returns (reply: Reply)
      requires Shaped(State()) && c in conns
      modifies `shares
      ensures (State(), reply) == AfterBegin(old(State()), c, h)
    {
      var i := BackendOf(conns[c], h);
      if !Admits(shares[i], h) { return SharingViolation; }
      shares := shares[i := shares[i].(holder := Some(h))];
      return Done;
    }

    method EndTransaction(c: nat, h: int, disposition: nat) returns (reply: Reply)
      requires Shaped(State()) && c in conns
      modifies `cards, `shares
      ensures (State(), reply) == AfterEnd(chip, old(State()), c, h, disposition)
    {
      hide C.Step;
      var i := BackendOf(conns[c], h);
      var held := shares[i].holder == Some(h);
      if held {
        shares := shares[i := shares[i].(holder := None)];
        cards := cards[i := Ended(chip, cards[i], disposition)];
      }
      return Done;
    }

    /** One attempt of `w`: the first, or a retry after the touch pad moved. */
    method Try(c: nat, w: Wait, now: int, drawn: Bytes) returns (reply: Reply)
      requires Shaped(State()) && w.reader < |cards|
      modifies `cards, `waiting
      ensures (State(), reply) == Attempt(chip, old(State()), c, w, now, drawn)
    {
      hide C.Step;
      var (card, answer) := C.Step(chip, cards[w.reader], C.Transmit(w.apdu, now, drawn));
      cards := cards[w.reader := card];
      if answer.awaiting.Some? {
        waiting := waiting[c := w];
        return Parked;
      }
      waiting := waiting - {c};
      return Response(answer.bytes);
    }

    method Transmit(c: nat, h: int, apdu: Bytes, now: int, drawn: Bytes) returns (reply: Reply)
      requires Shaped(State()) && c in conns
      modifies `cards, `waiting
      ensures (State(), reply) == AfterTransmit(chip, old(State()), c, h, apdu, now, drawn)
    {
      var i := BackendOf(conns[c], h);
      if !Admits(shares[i], h) { return SharingViolation; }
      reply := Try(c, Wait(h, i, apdu), now, drawn);
    }

    /** A client whose socket went away: close what it had open, in the order its table lists it. */
    method DropConnection(c: nat, order: seq<int>)
      requires Shaped(State()) && Enabled(State(), HangUp(c, order))
      modifies `cards, `shares, `conns
      ensures State() == S.Step(chip, old(State()), HangUp(c, order)).0
    {
      hide AfterClose;
      for k := 0 to |order|
        invariant Shaped(State()) && c in conns
        invariant State() == CloseAll(chip, old(State()), c, order[..k])
      {
        var _ := CloseHandle(c, order[k], C.DISPOSITION_LEAVE);
        assert order[..k + 1][..k] == order[..k];
        assert State() == CloseAll(chip, old(State()), c, order[..k + 1]);
      }
      assert order[..|order|] == order;
      conns := conns - {c};
    }
  }
}
