/**
 * What one command does to the pcsc-lite server: the cards, what every client
 * shares about them, and each connection's handles (crates/fibby/src/server.rs).
 */
module Server {
  import opened Base
  import C = Card

  /** What the server tracks for one card across every client. */
  datatype Share = Share(openHandles: nat, holder: Option<int>)

  /** One connection's handles, each bound to the index of its reader. */
  type Handles = map<int, nat>

  /** An APDU whose connection is parked until a touch comes. */
  datatype Wait = Wait(handle: int, reader: nat, apdu: Bytes)

  datatype State = State(
    names: seq<Bytes>, cards: seq<C.Card>, shares: seq<Share>,
    conns: map<nat, Handles>, waiting: map<nat, Wait>, minted: nat)

  datatype Reply =
    | Opened(handle: int) | Done | Response(bytes: Bytes) | Parked
    | UnknownReader | NoSmartcard | InvalidHandle | SharingViolation

  /** The handle counter is an i32 that wraps. */
  function I32(n: nat): int {
    var low := n % TWO_32;
    if low < TWO_32 / 2 then low else low - TWO_32
  }

  predicate Admits(share: Share, handle: int) { share.holder.None? || share.holder.value == handle }

  /** Index of the first reader with that name; the number of readers if there is none. */
  function Position(names: seq<Bytes>, name: Bytes): (i: nat)
    ensures i <= |names|
    ensures i < |names| ==> names[i] == name
    ensures forall j :: 0 <= j < i ==> names[j] != name
  {
    if names == [] || names[0] == name then 0 else 1 + Position(names[1..], name)
  }

  /** A single-reader server ignores the name. */
  function ReaderFor(names: seq<Bytes>, name: Bytes): (r: Option<nat>)
    ensures r.Some? && names != [] ==> r.value < |names|
    ensures r.Some? <==> name in names || |names| == 1
    ensures name in names ==> names[r.value] == name && forall j :: 0 <= j < r.value ==> names[j] != name
    ensures r.Some? && name !in names ==> r.value == 0
  {
    var i := Position(names, name);
    if i < |names| then Some(i) else if |names| == 1 then Some(0) else None
  }

  /** The reader a handle is bound to; reader 0 for a handle this connection never opened. */
  function BackendOf(handles: Handles, handle: int): nat {
    if handle in handles then handles[handle] else 0
  }

  function Bind(handles: Handles, h: int, reader: nat): Handles { handles[h := reader] }

  /** Indices in range: what the reader table guarantees. */
  predicate Shaped(s: State) {
    && s.cards != [] && |s.names| == |s.cards| == |s.shares|
    && (forall c, h :: c in s.conns && h in s.conns[c] ==> s.conns[c][h] < |s.cards|)
    && (forall c :: c in s.waiting ==> s.waiting[c].reader < |s.cards|)
  }

  function SetCard(s: State, i: nat, card: C.Card): State
    requires i < |s.cards|
  {
    s.(cards := s.cards[i := card])
  }

  function SetShare(s: State, i: nat, share: Share): State
    requires i < |s.shares|
  {
    s.(shares := s.shares[i := share])
  }

  function Powered(chip: C.Chip, card: C.Card): C.Card { C.Step(chip, card, C.PowerUp).0 }

  function Ended(
      chip: C.Chip, card: C.Card, disposition: nat): C.Card { C.Step(chip, card, C.EndTransaction(disposition)).0 }

  /** Power the card up for its first handle only, and mint the next handle. */
  function AfterConnect(chip: C.Chip, s: State, c: nat, name: Bytes): (State, Reply)
    requires Shaped(s) && c in s.conns
  {
    if ReaderFor(s.names, name).None? then (s, UnknownReader)
    else
      var i: nat := ReaderFor(s.names, name).value;
      if !s.cards[i].inserted then (s, NoSmartcard)
      else
        var s1 := if s.shares[i].openHandles == 0 then SetCard(s, i, Powered(chip, s.cards[i])) else s;
        var s2 := SetShare(s1, i, s.shares[i].(openHandles := s.shares[i].openHandles + 1));
        var h: int := I32(s.minted + 1);
        (s2.(minted := s.minted + 1, conns := s.conns[c := Bind(s.conns[c], h, i)]), Opened(h))
  }

  function AfterReconnect(chip: C.Chip, s: State, c: nat, h: int, initialization: nat): (State, Reply)
    requires Shaped(s) && c in s.conns
  {
    var i := BackendOf(s.conns[c], h);
    if s.shares[i].openHandles <= 1 then (SetCard(s, i, Powered(chip, s.cards[i])), Done)
    else if C.Resets(initialization) then (SetCard(s, i, Ended(chip, s.cards[i], initialization)), Done)
    else (s, Done)
  }

  /** Forget the handle, release its transaction, and power the card down if it was the last. */
  function AfterClose(chip: C.Chip, s: State, c: nat, h: int, disposition: nat): (State, Reply)
    requires Shaped(s) && c in s.conns
  {
    if h !in s.conns[c] then (s, InvalidHandle)
    else
      var i := s.conns[c][h];
      var share := s.shares[i];
      var share' := Share(if share.openHandles == 0 then 0 else share.openHandles - 1,
                          if share.holder == Some(h) then None else share.holder);
      var card := if share'.openHandles == 0 then C.PowerOff(s.cards[i])
                  else if C.Resets(disposition) then Ended(chip, s.cards[i], disposition)
                  else s.cards[i];
      (SetCard(SetShare(s, i, share'), i, card).(conns := s.conns[c := s.conns[c] - {h}]), Done)
  }

  function AfterBegin(s: State, c: nat, h: int): (State, Reply)
    requires Shaped(s) && c in s.conns
  {
    var i := BackendOf(s.conns[c], h);
    if Admits(s.shares[i], h) then (SetShare(s, i, s.shares[i].(holder := Some(h))), Done)
    else (s, SharingViolation)
  }

  /** Only the holder's disposition reaches the card. */
  function AfterEnd(chip: C.Chip, s: State, c: nat, h: int, disposition: nat): (State, Reply)
    requires Shaped(s) && c in s.conns
  {
    var i := BackendOf(s.conns[c], h);
    if s.shares[i].holder != Some(h) then (s, Done)
    else
      (SetCard(SetShare(s, i, s.shares[i].(holder := None)), i, Ended(chip, s.cards[i], disposition)), Done)
  }

  /** One attempt of an APDU at its card; a blocked one leaves its connection parked. */
  function Attempt(chip: C.Chip, s: State, c: nat, w: Wait, now: int, drawn: Bytes): (State, Reply)
    requires Shaped(s) && w.reader < |s.cards|
  {
    var (card, reply) := C.Step(chip, s.cards[w.reader], C.Transmit(w.apdu, now, drawn));
    var s' := SetCard(s, w.reader, card);
    if reply.awaiting.Some? then (s'.(waiting := s.waiting[c := w]), Parked)
    else (s'.(waiting := s.waiting - {c}), Response(reply.bytes))
  }

  function AfterTransmit(chip: C.Chip, s: State, c: nat, h: int, apdu: Bytes, now: int, drawn: Bytes): (State, Reply)
    requires Shaped(s) && c in s.conns
  {
    var i := BackendOf(s.conns[c], h);
    if Admits(s.shares[i], h) then Attempt(chip, s, c, Wait(h, i, apdu), now, drawn) else (s, SharingViolation)
  }

  /** Close the handles of a connection that went away, in the order its table lists them. */
  function CloseAll(chip: C.Chip, s: State, c: nat, order: seq<int>): (s': State)
    requires Shaped(s) && c in s.conns
    ensures Shaped(s') && c in s'.conns && |s'.cards| == |s.cards|
  {
    if order == [] then s
    else AfterClose(chip, CloseAll(chip, s, c, order[..|order| - 1]), c, order[|order| - 1], C.DISPOSITION_LEAVE).0
  }

  // --- every way the server changes -------------------------------------------------

  datatype Op =
    | Accept(c: nat)
    | Connect(c: nat, name: Bytes)
    | Reconnect(c: nat, h: int, initialization: nat)
    | Close(c: nat, h: int, disposition: nat)
    | Begin(c: nat, h: int)
    | End(c: nat, h: int, disposition: nat)
    | Transmit(c: nat, h: int, apdu: Bytes, now: int, drawn: Bytes)
    | Retry(c: nat, now: int, drawn: Bytes)
    | GiveUp(c: nat)
    | HangUp(c: nat, order: seq<int>)
    | Control(reader: nat, change: C.CardOp)

  /** What the control socket can do to a card. */
  predicate FromControlSocket(change: C.CardOp) {
    change.GrantTouch? || change.SetPresent? || change.InjectFault? || change.ClearFaults? || change.AdvanceClock?
  }

  /** `order` lists every handle of the connection exactly once. */
  predicate Lists(handles: Handles, order: seq<int>) {
    && (forall h :: h in handles ==> h in order)
    && (forall h :: h in order ==> h in handles)
    && (forall i, j :: 0 <= i < j < |order| ==> order[i] != order[j])
  }

  /** A parked connection does nothing but retry or give up; a hang-up is seen by a live, unparked one. */
  predicate Enabled(s: State, op: Op) {
    match op
    case Accept(c) => c !in s.conns && c !in s.waiting
    case Retry(c, _, _) => c in s.conns && c in s.waiting
    case GiveUp(c) => c in s.waiting
    case HangUp(c, order) => c in s.conns && c !in s.waiting && Lists(s.conns[c], order)
    case Control(reader, change) => reader < |s.cards| && FromControlSocket(change)
    case _ => op.c in s.conns && op.c !in s.waiting
  }

  function Step(chip: C.Chip, s: State, op: Op): (State, Reply)
    requires Shaped(s) && Enabled(s, op)
  {
    match op
    case Accept(c) => (s.(conns := s.conns[c := map[]]), Done)
    case Connect(c, name) => AfterConnect(chip, s, c, name)
    case Reconnect(c, h, initialization) => AfterReconnect(chip, s, c, h, initialization)
    case Close(c, h, disposition) => AfterClose(chip, s, c, h, disposition)
    case Begin(c, h) => AfterBegin(s, c, h)
    case End(c, h, disposition) => AfterEnd(chip, s, c, h, disposition)
    case Transmit(c, h, apdu, now, drawn) => AfterTransmit(chip, s, c, h, apdu, now, drawn)
    case Retry(c, now, drawn) => Attempt(chip, s, c, s.waiting[c], now, drawn)
    case GiveUp(c) => (s.(waiting := s.waiting - {c}), Response(C.SW_TOUCH_TIMEOUT))
    case HangUp(c, order) =>
      var closed := CloseAll(chip, s, c, order);
      (closed.(conns := closed.conns - {c}), Done)
    case Control(reader, change) =>
      var (card, reply) := C.Step(chip, s.cards[reader], change);
      (SetCard(s, reader, card), Response(reply.bytes))
  }

  /** A client names only handles its own connection has open. */
  predicate OwnHandles(s: State, op: Op) {
    match op
    case Reconnect(c, h, _) => c in s.conns && h in s.conns[c]
    case Begin(c, h) => c in s.conns && h in s.conns[c]
    case End(c, h, _) => c in s.conns && h in s.conns[c]
    case Transmit(c, h, _, _, _) => c in s.conns && h in s.conns[c]
    case _ => true
  }
}
