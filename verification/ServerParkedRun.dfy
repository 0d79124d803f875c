/**
 * A whole run of a fresh server in which a signature that was parked on a touch is made
 * and delivered inside another client's transaction
 * (crates/fibby/src/server.rs, crates/fibby/src/virtual_card.rs).
 */
module ServerParkedRun {
  import opened Base
  import opened ApduParse
  import opened Server
  import opened ServerHistory
  import opened ServerIsolation
  import opened ServerParked
  import opened CardHistory
  import opened CardTouch
  import C = Card
  import CardCommands
  import Touch

  // --- the commands ------------------------------------------------------------------

  const ADMIN: Header := Header(0x00, 0x87, 0x03, 0x9B)
  const GENERATE_9A: Header := Header(0x00, 0x47, 0x00, 0x9A)
  const SIGN_9A: Header := Header(0x00, 0x87, 0x11, 0x9A)

  function Ask(): Bytes { ShortApdu(ADMIN, [0x7C, 0x02, 0x81, 0x00], []) }

  function Answer(response: Bytes): Bytes
    requires |response| == 8
  {
    ShortApdu(ADMIN, [0x7C, 0x0A, 0x82, 0x08] + response, [])
  }

  /** A P-256 key, PIN policy never, touch policy always. */
  function TouchKeyTemplate(): Bytes { [0xAC, 0x09, 0x80, 0x01, 0x11, 0xAA, 0x01, 0x01, 0xAB, 0x01, 0x02] }

  function GenerateTouchKey(): Bytes { ShortApdu(GENERATE_9A, TouchKeyTemplate(), []) }

  function SignTemplate(digest: Bytes): Bytes
    requires 1 <= |digest| <= 64
  {
    [0x7C, |digest| + 2, 0x81, |digest|] + digest
  }

  function SignDigest(digest: Bytes): Bytes
    requires 1 <= |digest| <= 64
  {
    ShortApdu(SIGN_9A, SignTemplate(digest), [])
  }

  lemma OneByteTlv(tag: Byte, v: Byte, rest: Bytes)
    ensures var b := [tag, 0x01, v] + rest;
            TlvPrefix(b) == [Tlv(tag, [v])] + TlvPrefix(rest) && TlvTail(b) == TlvTail(rest)
  {
    var b := [tag, 0x01, v] + rest;
    assert b[2..3] == [v] && b[3..] == rest;
    assert SplitTlv(b) == Some((Tlv(tag, [v]), rest));
  }

  lemma TouchKeyFields()
    ensures GenerateFields(TouchKeyTemplate()) == Some(GenerateRequest(0x11, Some(1), Some(2)))
  {
    hide SplitTlv;
    var touch: Bytes := [0xAB, 0x01, 2] + [];
    var pin: Bytes := [0xAA, 0x01, 1] + touch;
    var inner: Bytes := [0x80, 0x01, 0x11] + pin;
    assert Template(TouchKeyTemplate(), 0xAC) == Some(inner) by { assert TouchKeyTemplate()[2..11] == inner; }
    OneByteTlv(0xAB, 2, []);
    OneByteTlv(0xAA, 1, touch);
    OneByteTlv(0x80, 0x11, pin);
    assert TlvPrefix([]) == [] && TlvTail([]) == [] by { assert SplitTlv([]) == None; }
    assert TlvPrefix(inner) == [Tlv(0x80, [0x11])] + ([Tlv(0xAA, [1])] + ([Tlv(0xAB, [2])] + []));
    assert TlvPrefix(inner) == [] + [Tlv(0x80, [0x11])] + [Tlv(0xAA, [1])] + [Tlv(0xAB, [2])];
    LastBytes(Tlv(0x80, [0x11]), Tlv(0xAA, [1]), Tlv(0xAB, [2]));
  }

  lemma LastBytes(alg: Tlv, pin: Tlv, touch: Tlv)
    requires alg.tag == 0x80 && pin.tag == 0xAA && touch.tag == 0xAB
    requires |alg.value| == 1 && |pin.value| == 1 && |touch.value| == 1
    ensures var tlvs := [] + [alg] + [pin] + [touch];
            && LastByte(tlvs, 0x80) == Some(alg.value[0]) && LastByte(tlvs, 0xAA) == Some(pin.value[0])
            && LastByte(tlvs, 0xAB) == Some(touch.value[0])
            && PoliciesWellFormed(tlvs) && Tlv(0x80, []) !in tlvs
  {
    hide LastByte;
    forall tag | tag in {0x80, 0xAA, 0xAB}
      ensures LastByte([] + [alg] + [pin] + [touch], tag) ==
              if touch.tag == tag then Some(touch.value[0]) else if pin.tag == tag then Some(pin.value[0]) else Some(alg.value[0])
    {
      LastByteOfOneMore([] + [alg] + [pin], touch, tag);
      LastByteOfOneMore([] + [alg], pin, tag);
      LastByteOfOneMore([], alg, tag);
    }
  }

  lemma DigestIsRead(digest: Bytes)
    requires 1 <= |digest| <= 64
    ensures GaSignRequest(SignTemplate(digest)) == Some(digest)
  {
    var body := SignTemplate(digest);
    var inner: Bytes := [0x81, |digest|] + digest;
    assert body == [0x7C, |digest| + 2] + inner;
    assert Template(body, 0x7C) == Some(inner) by { assert body[2..|digest| + 4] == inner; }
    assert SplitTlv(inner) == Some((Tlv(0x81, digest), [])) by {
      assert inner[2..|digest| + 2] == digest && inner[|digest| + 2..] == [];
    }
    assert TlvPrefix(inner)[0] == Tlv(0x81, digest);
  }

  // --- the card's part ------------------------------------------------------------------

  /** No SELECT needed, nobody's finger simulated, no fault queued. */
  predicate Plain(k: C.Card) { !k.requireSelect && !k.autoTouch && k.faults == [] }

  /** A plain command that does not wait for a touch is its execution, and marks that a command came. */
  lemma PlainStep(chip: C.Chip, k: C.Card, h: Header, data: Bytes, now: int, drawn: Bytes, command: C.Command)
    requires Plain(k) && 1 <= |data| <= 255 && h.ins != C.INS_VERIFY
    requires h == ADMIN ==> command == C.AuthenticateAdmin
    requires h == GENERATE_9A ==> command == C.GenerateKey(0x9A)
    requires h == SIGN_9A ==> command == C.SignWith(0x9A)
    requires h in {ADMIN, GENERATE_9A, SIGN_9A}
    ensures var (k', reply) := C.Execute(chip, k, command, Some(data), now, drawn);
            C.Step(chip, k, C.Transmit(ShortApdu(h, data, []), now, drawn)) ==
            (if reply.awaiting.Some? then k' else k'.(session := k'.session.(commandSinceVerify := true)), reply)
  {
    hide C.Execute, C.Route, ApduBody, C.Step;
    var apdu := ShortApdu(h, data, []);
    CardCommands.PlainCommand(k, h, data, now, drawn);
    CardCommands.AdminHeaders(k, apdu, 0, 0x9A);
    CardCommands.KeyHeaders(k, apdu, 0x9A);
    RunningDispatches(chip, k, C.Transmit(apdu, now, drawn));
  }

  lemma AskStep(chip: C.Chip, k: C.Card, now: int)
    requires Plain(k) && k.session.pendingWitness.None?
    ensures C.Step(chip, k, C.Transmit(Ask(), now, [])) ==
            (k.(session := k.session.(pendingWitness := Some(C.ZeroWitness()), commandSinceVerify := true)),
             C.Say([0x7C, 0x0A, 0x81, 0x08] + C.ZeroWitness() + C.SW_OK))
  {
    hide C.Step;
    PlainStep(chip, k, ADMIN, [0x7C, 0x02, 0x81, 0x00], now, [], C.AuthenticateAdmin);
  }

  lemma AnswerStep(chip: C.Chip, k: C.Card, response: Bytes, now: int)
    requires Plain(k) && |response| == 8
    requires k.session.pendingWitness.Some? && chip.tdesDecrypt(k.mgmtKey, response) == k.session.pendingWitness.value
    ensures C.Step(chip, k, C.Transmit(Answer(response), now, [])) ==
            (k.(session := k.session.(pendingWitness := None, mgmtAuthenticated := true, commandSinceVerify := true)),
             C.Say(C.SW_OK))
  {
    hide C.Step;
    var body: Bytes := [0x7C, 0x0A, 0x82, 0x08] + response;
    assert body[4..] == response && body[..4] == [0x7C, 0x0A, 0x82, 0x08];
    PlainStep(chip, k, ADMIN, body, now, [], C.AuthenticateAdmin);
  }

  lemma GenerateStep(chip: C.Chip, k: C.Card, scalar: Bytes, now: int)
    requires Plain(k) && k.session.mgmtAuthenticated && 0x9A !in k.generateOverrides && chip.validScalar(scalar)
    ensures var (k', reply) := C.Step(chip, k, C.Transmit(GenerateTouchKey(), now, scalar));
            && k' == k.(keys := C.Install(k.keys, 0x9A, scalar, C.Policy(C.PIN_NEVER, C.TOUCH_ALWAYS), C.Generated),
                        session := k.session.(commandSinceVerify := true))
            && reply.awaiting.None?
  {
    hide C.Step, GenerateFields;
    TouchKeyFields();
    PlainStep(chip, k, GENERATE_9A, TouchKeyTemplate(), now, scalar, C.GenerateKey(0x9A));
  }

  /** Slot 9A holds a usable key that asks for a touch each time and for no PIN. */
  predicate HasTouchKey(chip: C.Chip, k: C.Card, scalar: Bytes) {
    && 0x9A in k.keys.scalars && k.keys.scalars[0x9A] == scalar && chip.validScalar(scalar)
    && 0x9A in k.keys.policies && k.keys.policies[0x9A] == C.Policy(C.PIN_NEVER, C.TOUCH_ALWAYS)
  }

  function SignatureReply(der: Bytes): Bytes { C.Wrap([0x7C], C.Wrap([0x82], der)) + C.SW_OK }

  /** Without a touch the signature waits; with one it comes. */
  lemma SignStep(chip: C.Chip, k: C.Card, scalar: Bytes, digest: Bytes, now: int)
    requires Plain(k) && HasTouchKey(chip, k, scalar) && 1 <= |digest| <= 64 && chip.sign(scalar, digest).Some?
    ensures var (k', reply) := C.Step(chip, k, C.Transmit(SignDigest(digest), now, []));
            if k.pad.pending == 0 then k' == k && reply.awaiting.Some?
            else reply == C.Say(SignatureReply(chip.sign(scalar, digest).value))
  {
    hide C.Step, GaSignRequest, C.Wrap;
    DigestIsRead(digest);
    PlainStep(chip, k, SIGN_9A, SignTemplate(digest), now, [], C.SignWith(0x9A));
  }

  // --- the server's part -------------------------------------------------------------------

  /** An APDU that is answered at once changes its card and nothing else. */
  lemma Answered(chip: C.Chip, s: State, c: nat, h: int, apdu: Bytes, now: int, drawn: Bytes)
    requires Shaped(s) && c in s.conns && s.waiting == map[] && h in s.conns[c]
    requires Admits(s.shares[s.conns[c][h]], h)
    requires C.Step(chip, s.cards[s.conns[c][h]], C.Transmit(apdu, now, drawn)).1.awaiting.None?
    ensures var i := s.conns[c][h];
            Next(chip, s, Transmit(c, h, apdu, now, drawn)) ==
            s.(cards := s.cards[i := C.Step(chip, s.cards[i], C.Transmit(apdu, now, drawn)).0])
  {
    hide C.Step;
    assert s.waiting - {c} == s.waiting;
  }

  /** One that waits for a touch parks its connection and, here, changes nothing else. */
  lemma Parks(chip: C.Chip, s: State, c: nat, h: int, apdu: Bytes, now: int, drawn: Bytes)
    requires Shaped(s) && c in s.conns && s.waiting == map[] && h in s.conns[c]
    requires Admits(s.shares[s.conns[c][h]], h)
    requires var (k, reply) := C.Step(chip, s.cards[s.conns[c][h]], C.Transmit(apdu, now, drawn));
             reply.awaiting.Some? && k == s.cards[s.conns[c][h]]
    ensures Next(chip, s, Transmit(c, h, apdu, now, drawn)) == s.(waiting := map[c := Wait(h, s.conns[c][h], apdu)])
  {
    hide C.Step;
    var i := s.conns[c][h];
    assert s.cards[i := s.cards[i]] == s.cards;
    assert s.waiting[c := Wait(h, i, apdu)] == map[c := Wait(h, i, apdu)];
  }

  /** One client, one handle, nobody waiting. */
  predicate OneClient(t: State, names: seq<Bytes>, i: nat) {
    && Shaped(t) && t.names == names && i < |t.cards| && t.cards[i].inserted && t.waiting == map[] && t.minted == 1
    && t.conns == map[0 := map[1 := i]] && t.shares[i] == Share(1, None)
  }

  function Opening(name: Bytes): seq<Op> { [Accept(0), Connect(0, name)] }

  lemma Opened(chip: C.Chip, s: State, name: Bytes, i: nat)
    requires Initial(s) && ReaderFor(s.names, name) == Some(i) && i < |s.cards| && s.cards[i].inserted
    ensures var t := Run(chip, s, Opening(name));
            OneClient(t, s.names, i) && t.cards[i] == Powered(chip, s.cards[i]) && OwnRun(chip, s, Opening(name))
  {
    hide C.Step, ReaderFor, Next;
    var arrived := s.(conns := map[0 := map[]]);
    assert s.shares[i] in s.shares;
    RunOfTwo(chip, s, Accept(0), Connect(0, name));
    assert s.conns[0 := map[]] == arrived.conns;
    ClientArrives(chip, s, 0);
    ClientConnects(chip, arrived, 0, name, i);
    assert I32(1) == 1;
    assert Bind(map[], 1, i) == map[1 := i];
    UnnamedIsOwn(chip, s, Opening(name));
  }

  function MakeKey(response: Bytes, scalar: Bytes, now: int): seq<Op>
    requires |response| == 8
  {
    [Transmit(0, 1, Ask(), now, []), Transmit(0, 1, Answer(response), now, []), Transmit(0, 1, GenerateTouchKey(), now, scalar)]
  }

  /** What the client needs: the answer to the challenge, and a usable scalar from the card's generator. */
  predicate CanMakeKey(chip: C.Chip, k: C.Card, response: Bytes, scalar: Bytes) {
    && Plain(k) && k.session.pendingWitness.None? && 0x9A !in k.generateOverrides && k.pad == Touch.FRESH_PAD
    && |response| == 8 && chip.tdesDecrypt(k.mgmtKey, response) == C.ZeroWitness() && chip.validScalar(scalar)
  }

  /** A touch key, and no touch yet. */
  predicate KeyMade(chip: C.Chip, k: C.Card, scalar: Bytes) {
    Plain(k) && k.inserted && HasTouchKey(chip, k, scalar) && k.pad.pending == 0
  }

  lemma KeyIsMade(chip: C.Chip, t: State, names: seq<Bytes>, i: nat, response: Bytes, scalar: Bytes, now: int)
    requires OneClient(t, names, i) && CanMakeKey(chip, t.cards[i], response, scalar)
    ensures var u := Run(chip, t, MakeKey(response, scalar, now));
            OneClient(u, names, i) && KeyMade(chip, u.cards[i], scalar) && OwnRun(chip, t, MakeKey(response, scalar, now))
  {
    hide C.Step, Next, Ask, Answer, GenerateTouchKey;
    var k := t.cards[i];
    var o1, o2, o3 := Transmit(0, 1, Ask(), now, []), Transmit(0, 1, Answer(response), now, []),
                      Transmit(0, 1, GenerateTouchKey(), now, scalar);
    AskStep(chip, k, now);
    Answered(chip, t, 0, 1, Ask(), now, []);
    var t1 := Next(chip, t, o1);
    AnswerStep(chip, t1.cards[i], response, now);
    Answered(chip, t1, 0, 1, Answer(response), now, []);
    var t2 := Next(chip, t1, o2);
    GenerateStep(chip, t2.cards[i], scalar, now);
    Answered(chip, t2, 0, 1, GenerateTouchKey(), now, scalar);
    RunOfThree(chip, t, o1, o2, o3);
    OwnRunOfThree(chip, t, o1, o2, o3);
  }

  /** A second client opens the card, and the first one asks for a signature. */
  function Rival(name: Bytes, digest: Bytes, now: int): seq<Op>
    requires 1 <= |digest| <= 64
  {
    [Accept(1), Connect(1, name), Transmit(0, 1, SignDigest(digest), now, [])]
  }

  /** The first client is parked, nobody holds a transaction, the second has an idle handle. */
  predicate ParkedBesideRival(t: State, i: nat, digest: Bytes)
    requires 1 <= |digest| <= 64
  {
    && Shaped(t) && i < |t.cards| && t.waiting == map[0 := Wait(1, i, SignDigest(digest))] && t.minted == 2
    && t.conns == map[0 := map[1 := i], 1 := map[2 := i]] && t.shares[i] == Share(2, None)
  }

  lemma RivalOpens(chip: C.Chip, t: State, names: seq<Bytes>, i: nat, name: Bytes)
    requires OneClient(t, names, i) && ReaderFor(names, name) == Some(i)
    ensures Next(chip, Next(chip, t, Accept(1)), Connect(1, name)) ==
            t.(conns := map[0 := map[1 := i], 1 := map[2 := i]], minted := 2, shares := t.shares[i := Share(2, None)])
    ensures Next(chip, t, Accept(1)).conns.Keys == {0, 1}
  {
    hide C.Step, ReaderFor, Next;
    ClientArrives(chip, t, 1);
    var arrived := Next(chip, t, Accept(1));
    ClientConnects(chip, arrived, 1, name, i);
    assert I32(2) == 2;
    var rival: Handles := map[2 := i];
    assert Bind(map[], 2, i) == rival;
    assert arrived.conns[1 := rival] == map[0 := map[1 := i], 1 := map[2 := i]];
    assert arrived.cards[i := arrived.cards[i]] == t.cards;
  }

  lemma SignatureParks(
      chip: C.Chip, t: State, names: seq<Bytes>, i: nat, name: Bytes, scalar: Bytes, digest: Bytes, now: int)
    requires OneClient(t, names, i) && ReaderFor(names, name) == Some(i) && KeyMade(chip, t.cards[i], scalar)
    requires 1 <= |digest| <= 64 && chip.sign(scalar, digest).Some?
    ensures var u := Run(chip, t, Rival(name, digest, now));
            && ParkedBesideRival(u, i, digest) && KeyMade(chip, u.cards[i], scalar)
            && OwnRun(chip, t, Rival(name, digest, now))
  {
    hide C.Step, ReaderFor, Next, SignDigest;
    var o1, o2, o3 := Accept(1), Connect(1, name), Transmit(0, 1, SignDigest(digest), now, []);
    RivalOpens(chip, t, names, i, name);
    var t2 := Next(chip, Next(chip, t, o1), o2);
    SignStep(chip, t2.cards[i], scalar, digest, now);
    Parks(chip, t2, 0, 1, SignDigest(digest), now, []);
    RunOfThree(chip, t, o1, o2, o3);
    OwnRunOfThree(chip, t, o1, o2, o3);
  }

  // --- the story -------------------------------------------------------------------------------

  function Story(name: Bytes, response: Bytes, scalar: Bytes, digest: Bytes, now: int): seq<Op>
    requires |response| == 8 && 1 <= |digest| <= 64
  {
    Opening(name) + MakeKey(response, scalar, now) + Rival(name, digest, now)
  }

  lemma StoryParks(
      chip: C.Chip, s: State, name: Bytes, i: nat, response: Bytes, scalar: Bytes, digest: Bytes, now: int)
    requires Initial(s) && ReaderFor(s.names, name) == Some(i) && i < |s.cards| && s.cards[i].inserted
    requires CanMakeKey(chip, s.cards[i], response, scalar)
    requires 1 <= |digest| <= 64 && chip.sign(scalar, digest).Some?
    ensures var t, ops := Run(chip, s, Story(name, response, scalar, digest, now)), Story(name, response, scalar, digest, now);
            ParkedBesideRival(t, i, digest) && KeyMade(chip, t.cards[i], scalar) && OwnRun(chip, s, ops) && Inv(t)
  {
    hide C.Dispatch, ReaderFor, Next, Run, OwnRun, Opening, MakeKey, Rival, Inv, ParkedBesideRival, KeyMade;
    var first, second, third := Opening(name), MakeKey(response, scalar, now), Rival(name, digest, now);
    Opened(chip, s, name, i);
    var t1 := Run(chip, s, first);
    KeyIsMade(chip, t1, s.names, i, response, scalar, now);
    var t2 := Run(chip, t1, second);
    SignatureParks(chip, t2, s.names, i, name, scalar, digest, now);
    RunAppends(chip, s, first, second);
    OwnRunAppends(chip, s, first, second);
    RunAppends(chip, s, first + second, third);
    OwnRunAppends(chip, s, first + second, third);
    InitialIsInv(s);
    InvOverRuns(chip, s, first + second + third);
  }

  lemma RivalBegins(chip: C.Chip, t: State, i: nat, digest: Bytes)
    requires 1 <= |digest| <= 64 && ParkedBesideRival(t, i, digest)
    ensures var u := Next(chip, t, Begin(1, 2));
            && u == t.(shares := t.shares[i := Share(2, Some(2))]) && RetryIsForeign(u, 0) && OwnHandles(t, Begin(1, 2))
  {
  }

  /** With the touch there, the retry answers the signature, whoever holds the transaction. */
  lemma TouchDelivers(chip: C.Chip, u: State, i: nat, scalar: Bytes, digest: Bytes, later: int)
    requires Shaped(u) && i < |u.cards| && 0 in u.conns && KeyMade(chip, u.cards[i], scalar)
    requires 1 <= |digest| <= 64 && chip.sign(scalar, digest).Some?
    requires u.waiting == map[0 := Wait(1, i, SignDigest(digest))]
    ensures var touched := Next(chip, u, Control(i, C.GrantTouch));
            && Shaped(touched) && Enabled(touched, Retry(0, later, []))
            && var (v, reply) := Server.Step(chip, touched, Retry(0, later, []));
               v.shares == u.shares && reply == Response(SignatureReply(chip.sign(scalar, digest).value))
  {
    hide C.Dispatch, SignDigest, SignatureReply;
    var touched := Next(chip, u, Control(i, C.GrantTouch));
    var k := C.Step(chip, u.cards[i], C.GrantTouch).0;
    assert touched == SetCard(u, i, k);
    SignStep(chip, k, scalar, digest, later);
  }

  /**
   * From a fresh server: a client answers the admin challenge, makes a touch key and asks for a
   * signature, which parks; a second client opens the card and begins a transaction; the touch
   * comes, and the first client's signature is made and delivered inside the second's transaction.
   */
  lemma SignatureInForeignTransaction(
      chip: C.Chip, s: State, name: Bytes, i: nat, response: Bytes, scalar: Bytes, digest: Bytes, now: int, later: int)
    requires Initial(s) && ReaderFor(s.names, name) == Some(i) && i < |s.cards| && s.cards[i].inserted
    requires CanMakeKey(chip, s.cards[i], response, scalar)
    requires 1 <= |digest| <= 64 && chip.sign(scalar, digest).Some?
    ensures var ops := Story(name, response, scalar, digest, now) + [Begin(1, 2)];
            var t := Run(chip, s, ops);
            && OwnRun(chip, s, ops) && RetryIsForeign(t, 0) && i < |t.shares| && t.shares[i].holder == Some(2)
            && var touched := Next(chip, t, Control(i, C.GrantTouch));
               && Shaped(touched) && Enabled(touched, Retry(0, later, []))
               && var (v, reply) := Server.Step(chip, touched, Retry(0, later, []));
                  v.shares == t.shares && reply == Response(SignatureReply(chip.sign(scalar, digest).value))
  {
    hide C.Step, C.Dispatch, ReaderFor, Next, Run, OwnRun, Story, KeyMade, Inv, Server.Step, Enabled, SignatureReply, SignDigest;
    var before := Story(name, response, scalar, digest, now);
    StoryParks(chip, s, name, i, response, scalar, digest, now);
    var t := Run(chip, s, before);
    RivalBegins(chip, t, i, digest);
    RunOneMore(chip, s, before, Begin(1, 2));
    OwnRunOneMore(chip, s, before, Begin(1, 2));
    TouchDelivers(chip, Run(chip, s, before + [Begin(1, 2)]), i, scalar, digest, later);
  }
}
