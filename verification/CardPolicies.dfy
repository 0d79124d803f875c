/**
 * When the card signs and agrees keys, by the policy each key arrived with and by what was
 * verified and touched before (crates/fibby/src/virtual_card.rs).
 */
module CardPolicies {
  import opened Base
  import opened ApduParse
  import opened Card
  import opened CardHistory
  import opened CardTouch
  import opened CardContents
  import opened CardCommands
  import Touch

  // --- what a key asks for -------------------------------------------------------------

  datatype PinRule = NoPin | PinOnce | PinEachTime

  /** By the PIN policy the key arrived with: 1 never, 2 once, 3 always; 0 is always in slot 9C, never in 9E and once elsewhere. */
  function PinRuleOf(a: Option<Arrival>, slot: Byte): PinRule {
    var policy := if a.Some? then a.value.policy.pin else 0;
    if policy == 1 || (policy == 0 && slot == 0x9E) then NoPin
    else if policy == 3 || (policy == 0 && slot == 0x9C) then PinEachTime
    else PinOnce
  }

  lemma RulesAreEffective(chip: Chip, keys: Keys, slot: Byte, a: Option<Arrival>)
    requires CardContents.Holds(chip, keys, slot, a)
    ensures EffectivePin(keys, slot) == PIN_ALWAYS <==> PinRuleOf(a, slot) == PinEachTime
    ensures EffectivePin(keys, slot) == PIN_NEVER <==> PinRuleOf(a, slot) == NoPin
    ensures EffectiveTouch(keys, slot) == TOUCH_ALWAYS <==> a.Some? && a.value.policy.touch == 2
    ensures EffectiveTouch(keys, slot) == TOUCH_CACHED <==> a.Some? && a.value.policy.touch == 3
  {
  }

  // --- when the PIN counts as verified -----------------------------------------------------

  /** A result of a private-key operation under a policy that asks for the PIN each time. */
  predicate SpendsPin(chip: Chip, s: Card, op: CardOp, a: Option<Arrival>, slot: Byte) {
    KeySlot(s, op) == Some(slot) && |Step(chip, s, op).1.bytes| > 2 && PinRuleOf(a, slot) == PinEachTime
  }

  /** What ends a verification: the session, an accepted unblock or factory reset, or being spent. */
  predicate EndsVerification(chip: Chip, s: Card, ops: seq<CardOp>, m: nat)
    requires m < |ops|
  {
    var t, op := At(chip, s, ops, m), ops[m];
    || EndsSession(t, op) || UnblockAccepted(t, op) || Wiped(t, op)
    || (KeySlot(t, op).Some? && SpendsPin(chip, t, op, LastArrival(chip, s, ops[..m], KeySlot(t, op).value), KeySlot(t, op).value))
  }

  /** Operation `j` verified the PIN and nothing since has ended that. */
  predicate VerifiedSince(chip: Chip, s: Card, ops: seq<CardOp>, j: nat) {
    && j < |ops| && VerifyAccepted(At(chip, s, ops, j), ops[j])
    && forall m {:trigger ops[m]} :: j < m < |ops| ==> !EndsVerification(chip, s, ops, m)
  }

  lemma SignSpends(chip: Chip, s: Card, slot: Byte, body: Option<Bytes>, now: int)
    ensures var used := Sign(chip, s, slot, body, now);
            used.session == if |used.reply.bytes| > 2 && EffectivePin(s.keys, slot) == PIN_ALWAYS
                            then s.session.(pinVerified := false) else s.session
  {
    hide GaSignRequest, TouchGate, EffectivePin, PushBerLen;
  }

  lemma AgreeSpends(chip: Chip, s: Card, body: Option<Bytes>, now: int)
    ensures var used := Agree(chip, s, body, now);
            used.session == if |used.reply.bytes| > 2 && EffectivePin(s.keys, 0x9D) == PIN_ALWAYS
                            then s.session.(pinVerified := false) else s.session
  {
    hide GaEcdhRequest, TouchGate, EffectivePin;
  }

  /** The session after each command that is about a private key; no command but these and the PIN's touches the verification. */
  lemma ExecuteKeys(chip: Chip, s: Card, command: Command, body: Option<Bytes>, now: int, drawn: Bytes)
    ensures var s' := Execute(chip, s, command, body, now, drawn).0;
            var reply := Execute(chip, s, command, body, now, drawn).1;
            && (command.SignWith? ==>
                  s'.session == Sign(chip, s, command.slot, body, now).session && reply == Sign(chip, s, command.slot, body, now).reply)
            && (command.KeyAgreement? ==>
                  s'.session == Agree(chip, s, body, now).session && reply == Agree(chip, s, body, now).reply)
            && (!command.SignWith? && !command.KeyAgreement? && !PinCommand(command) ==>
                  s'.session.pinVerified == s.session.pinVerified)
  {
    hide Sign, Agree, SetMgmtKey, GetData, PutData, Attest, Metadata, Verify, ChangeReference, ResetRetry, Generate,
         Import, FactoryReset;
  }

  lemma VerifiedPinCommand(chip: Chip, s: Card, command: Command, body: Option<Bytes>, now: int, drawn: Bytes)
    requires EightBytes(s.pins) && PinCommand(command)
    ensures var verified := Execute(chip, s, command, body, now, drawn).0.session.pinVerified;
            match command
            case VerifyPin => verified == (s.session.pinVerified || (s.pins.pinRetries != 0 && body == Some(s.pins.pin)))
            case UnblockPin => verified == (s.session.pinVerified && !(FirstHalf(body) == Some(s.pins.puk) && s.pins.pukRetries != 0))
            case Wipe => verified == (s.session.pinVerified && !BothBlocked(s.pins))
            case _ => verified == s.session.pinVerified
  {
    hide Execute;
    ExecutePins(chip, s, command, body, now, drawn);
  }

  lemma UnblockIs(s: Card, op: CardOp)
    requires Running(s, op) == Some(UnblockPin)
    ensures UnblockAccepted(s, op) <==> FirstHalf(ApduBody(op.apdu)) == Some(s.pins.puk) && s.pins.pukRetries != 0
  {
    hide ApduBody, Route;
  }

  lemma VerifiedCommand(chip: Chip, s: Card, op: CardOp)
    requires Running(s, op).Some? && EightBytes(s.pins)
    ensures var s' := Step(chip, s, op).0;
            s'.session.pinVerified <==>
            && (s.session.pinVerified || VerifyAccepted(s, op))
            && !UnblockAccepted(s, op) && !Wiped(s, op)
            && !(KeySlot(s, op).Some? && |Step(chip, s, op).1.bytes| > 2 && EffectivePin(s.keys, KeySlot(s, op).value) == PIN_ALWAYS)
  {
    hide Execute, Route, ApduBody, IsVerify, Step, EffectivePin, Sign, Agree, PukEventAt, FirstHalf;
    var command, body := Running(s, op).value, ApduBody(op.apdu);
    RunningDispatches(chip, s, op);
    ExecuteKeys(chip, s, command, body, op.now, op.drawn);
    if PinCommand(command) {
      VerifiedPinCommand(chip, s, command, body, op.now, op.drawn);
      if command == UnblockPin { UnblockIs(s, op); }
    } else if command.SignWith? {
      SignSpends(chip, s, command.slot, body, op.now);
    } else if command.KeyAgreement? {
      AgreeSpends(chip, s, body, op.now);
    }
  }

  lemma VerifiedOther(chip: Chip, s: Card, op: CardOp)
    requires Running(s, op).None?
    ensures Step(chip, s, op).0.session.pinVerified <==> s.session.pinVerified && !EndsSession(s, op)
    ensures !VerifyAccepted(s, op) && !UnblockAccepted(s, op) && !Wiped(s, op) && KeySlot(s, op).None?
  {
    hide Dispatch;
    if op.Transmit? { NotRunning(chip, s, op); }
  }

  /** One operation: exactly what makes and what ends a verification. */
  lemma VerifiedStep(chip: Chip, s: Card, ops: seq<CardOp>, n: nat)
    requires Initial(s) && n < |ops|
    ensures Run(chip, s, ops[..n + 1]).session.pinVerified <==>
            (At(chip, s, ops, n).session.pinVerified || VerifyAccepted(At(chip, s, ops, n), ops[n])) && !EndsVerification(chip, s, ops, n)
  {
    hide Step, EffectivePin, LastArrival, VerifyAccepted, UnblockAccepted, Wiped, KeySlot, CardContents.Holds, PinRuleOf;
    var t, op := At(chip, s, ops, n), ops[n];
    assert ops[..n + 1][..n] == ops[..n];
    PinsStayEightBytes(chip, s, ops[..n]);
    if Running(t, op).Some? {
      VerifiedCommand(chip, t, op);
      assert !EndsSession(t, op) by { CommandsEndNoSession(t, op); }
      if KeySlot(t, op).Some? {
        var slot := KeySlot(t, op).value;
        ProvenanceFollowsTheKey(chip, s, ops[..n], slot);
        RulesAreEffective(chip, t.keys, slot, LastArrival(chip, s, ops[..n], slot));
      }
    } else {
      VerifiedOther(chip, t, op);
    }
  }

  lemma CommandsEndNoSession(s: Card, op: CardOp)
    requires Running(s, op).Some?
    ensures !EndsSession(s, op)
  {
  }

  lemma SamePrefix(chip: Chip, s: Card, ops: seq<CardOp>, n: nat, m: nat)
    requires m < n <= |ops|
    ensures ops[..n][m] == ops[m] && ops[..n][..m] == ops[..m]
    ensures EndsVerification(chip, s, ops[..n], m) == EndsVerification(chip, s, ops, m)
  {
    hide Step, EndsSession, UnblockAccepted, Wiped, KeySlot, SpendsPin, LastArrival, Run;
    assert ops[..n][..m] == ops[..m];
  }

  lemma VerifiedSinceOneMore(chip: Chip, s: Card, ops: seq<CardOp>, j: nat)
    requires ops != [] && j < |ops| - 1
    ensures VerifiedSince(chip, s, ops, j) <==>
            VerifiedSince(chip, s, ops[..|ops| - 1], j) && !EndsVerification(chip, s, ops, |ops| - 1)
  {
    hide Step, EndsVerification, VerifyAccepted, Run;
    var n := |ops| - 1;
    forall m | 0 <= m < n
      ensures ops[..n][m] == ops[m] && ops[..n][..m] == ops[..m]
      ensures EndsVerification(chip, s, ops[..n], m) == EndsVerification(chip, s, ops, m)
    {
      SamePrefix(chip, s, ops, n, m);
    }
    if VerifiedSince(chip, s, ops[..n], j) && !EndsVerification(chip, s, ops, n) {
      forall m | j < m < |ops| ensures !EndsVerification(chip, s, ops, m) {
        if m < n { assert !EndsVerification(chip, s, ops[..n], m) by { var op := ops[..n][m]; } }
      }
    }
    if VerifiedSince(chip, s, ops, j) {
      assert !EndsVerification(chip, s, ops, n) by { var op := ops[n]; }
      forall m | j < m < n ensures !EndsVerification(chip, s, ops[..n], m) {
        assert !EndsVerification(chip, s, ops, m) by { var op := ops[m]; }
      }
    }
  }

  /** The session counts as verified exactly if some VERIFY was accepted and nothing since has ended that. */
  lemma {:induction false} VerifiedIffSince(chip: Chip, s: Card, ops: seq<CardOp>)
    requires Initial(s)
    ensures Run(chip, s, ops).session.pinVerified <==> exists j: nat :: VerifiedSince(chip, s, ops, j)
  {
    hide Step, VerifyAccepted, EndsVerification, Run, VerifiedSince, Initial;
    if ops == [] {
      NothingVerified(chip, s);
    } else {
      var n := |ops| - 1;
      assert ops[..n + 1] == ops;
      VerifiedIffSince(chip, s, ops[..n]);
      VerifiedStep(chip, s, ops, n);
      LastVerifies(chip, s, ops);
      if Run(chip, s, ops).session.pinVerified {
        if VerifyAccepted(At(chip, s, ops, n), ops[n]) {
          assert VerifiedSince(chip, s, ops, n);
        } else {
          var j: nat :| VerifiedSince(chip, s, ops[..n], j);
          SinceIsAnIndex(chip, s, ops[..n], j);
          VerifiedSinceOneMore(chip, s, ops, j);
        }
      } else {
        forall j: nat ensures !VerifiedSince(chip, s, ops, j) {
          SinceIsAnIndex(chip, s, ops, j);
          if j < n { VerifiedSinceOneMore(chip, s, ops, j); }
        }
      }
    }
  }

  lemma SinceIsAnIndex(chip: Chip, s: Card, ops: seq<CardOp>, j: nat)
    ensures VerifiedSince(chip, s, ops, j) ==> j < |ops|
  {
  }

  lemma NothingVerified(chip: Chip, s: Card)
    requires Initial(s)
    ensures !Run(chip, s, []).session.pinVerified && forall j: nat :: !VerifiedSince(chip, s, [], j)
  {
  }

  lemma LastVerifies(chip: Chip, s: Card, ops: seq<CardOp>)
    requires ops != []
    ensures VerifiedSince(chip, s, ops, |ops| - 1) <==> VerifyAccepted(At(chip, s, ops, |ops| - 1), ops[|ops| - 1])
    ensures VerifyAccepted(At(chip, s, ops, |ops| - 1), ops[|ops| - 1]) ==> !EndsVerification(chip, s, ops, |ops| - 1)
  {
    hide Step, Run;
  }

  // --- when it counts as just verified ----------------------------------------------------------

  lemma ArmedLasts(chip: Chip, s: Card, op: CardOp)
    requires Armed(s) && !Intervenes(chip, s, op) && EightBytes(s.pins)
    ensures Armed(Step(chip, s, op).0)
  {
    if Step(chip, s, op).1.awaiting.Some? {
      BlockedAttemptChangesNothing(chip, s, op);
    } else if op.Transmit? && !NoApplet(s, op.apdu) {
      VerifyLasts(chip, s, op);
    } else {
      OthersDisarmNothing(chip, s, op);
    }
  }

  lemma VerifyLasts(chip: Chip, s: Card, op: CardOp)
    requires Armed(s) && EightBytes(s.pins) && op.Transmit? && !NoApplet(s, op.apdu) && IsVerify(op.apdu)
    ensures Armed(Step(chip, s, op).0)
  {
    if Running(s, op).Some? {
      hide Step, Route, ApduBody;
      VerifyingCommand(chip, s, op);
    } else {
      NotRunning(chip, s, op);
    }
  }

  lemma OthersDisarmNothing(chip: Chip, s: Card, op: CardOp)
    requires Armed(s) && !EndsSession(s, op) && (op.Transmit? ==> NoApplet(s, op.apdu))
    ensures Armed(Step(chip, s, op).0)
  {
    hide DispatchCommand;
  }

  lemma FreshVerifyOneMore(chip: Chip, s: Card, ops: seq<CardOp>, j: nat)
    requires ops != [] && FreshVerify(chip, s, ops, j) && j < |ops| - 1
    ensures FreshVerify(chip, s, ops[..|ops| - 1], j) && !Intervenes(chip, At(chip, s, ops, |ops| - 1), ops[|ops| - 1])
  {
    hide Step, Intervenes, VerifyAccepted, Run;
    var n := |ops| - 1;
    forall m | 0 <= m < n ensures ops[..n][m] == ops[m] && ops[..n][..m] == ops[..m] {}
    assert !Intervenes(chip, At(chip, s, ops, n), ops[n]);
  }

  /** A card is ready for a PIN-always operation exactly if some VERIFY was accepted and nothing since has intervened. */
  lemma {:induction false} ArmedIffFresh(chip: Chip, s: Card, ops: seq<CardOp>)
    requires Initial(s)
    ensures Armed(Run(chip, s, ops)) <==> exists j: nat :: FreshVerify(chip, s, ops, j)
  {
    ArmedMeansFresh(chip, s, ops);
    forall j: nat | FreshVerify(chip, s, ops, j) ensures Armed(Run(chip, s, ops)) { FreshIsArmed(chip, s, ops, j); }
  }

  lemma {:induction false} FreshIsArmed(chip: Chip, s: Card, ops: seq<CardOp>, j: nat)
    requires Initial(s) && FreshVerify(chip, s, ops, j)
    ensures Armed(Run(chip, s, ops))
  {
    hide Step, Intervenes, VerifyAccepted, Initial;
    var n := |ops| - 1;
    EightAtStart(s);
    PinsStayEightBytes(chip, s, ops[..n]);
    if j == n {
      ArmingStep(chip, Run(chip, s, ops[..n]), ops[n]);
    } else {
      FreshVerifyOneMore(chip, s, ops, j);
      FreshIsArmed(chip, s, ops[..n], j);
      ArmedLasts(chip, Run(chip, s, ops[..n]), ops[n]);
    }
  }

  lemma EightAtStart(s: Card)
    requires Initial(s)
    ensures EightBytes(s.pins)
  {
  }

  // --- what a private-key operation answers ------------------------------------------------------

  /** The PIN rule of the key in `slot`, in terms of the history alone. */
  ghost predicate PinMet(chip: Chip, s: Card, ops: seq<CardOp>, slot: Byte) {
    match PinRuleOf(LastArrival(chip, s, ops, slot), slot)
    case NoPin => true
    case PinOnce => exists j: nat :: VerifiedSince(chip, s, ops, j)
    case PinEachTime => exists j: nat :: FreshVerify(chip, s, ops, j)
  }

  lemma PinSatisfiedIffMet(chip: Chip, s: Card, ops: seq<CardOp>, slot: Byte)
    requires Initial(s)
    ensures var t := Run(chip, s, ops); PinSatisfied(t.keys, t.session, slot) <==> PinMet(chip, s, ops, slot)
  {
    hide Step, Run, LastArrival, VerifiedSince, FreshVerify, EffectivePin, PinRuleOf, CardContents.Holds, Initial;
    var t := Run(chip, s, ops);
    ProvenanceFollowsTheKey(chip, s, ops, slot);
    RulesAreEffective(chip, t.keys, slot, LastArrival(chip, s, ops, slot));
    VerifiedIffSince(chip, s, ops);
    ArmedIffFresh(chip, s, ops);
  }

  /** The touch policy the key arrived with: 2 each time, 3 within the window of one, anything else none. */
  predicate TouchMet(t: Card, a: Arrival, slot: Byte, now: int) {
    || a.policy.touch !in {2, 3} || t.autoTouch || t.pad.pending > 0
    || (a.policy.touch == 3 && slot in t.pad.cachedUntil && now + t.clockSkew < t.pad.cachedUntil[slot])
  }

  lemma GateIsTouchMet(chip: Chip, t: Card, a: Arrival, slot: Byte, now: int)
    requires CardContents.Holds(chip, t.keys, slot, Some(a))
    ensures TouchGate(t, slot, now).1 == if TouchMet(t, a, slot, now) then None else Some(t.pad.generation)
  {
    hide CardContents.Holds, EffectiveTouch;
    RulesAreEffective(chip, t.keys, slot, Some(a));
  }

  /** `7C <len> 82 <len> <der> 90 00`. */
  lemma SignatureWrapped(der: Bytes)
    requires |der| <= 125
    ensures Wrap([0x7C], Wrap([0x82], der)) + SW_OK == [0x7C, |der| + 2, 0x82, |der|] + der + [0x90, 0x00]
  {
    assert Wrap([0x82], der) == [0x82, |der|] + der;
    assert Wrap([0x7C], Wrap([0x82], der)) == [0x7C, |der| + 2] + ([0x82, |der|] + der);
    assert [0x7C, |der| + 2] + ([0x82, |der|] + der) + [0x90, 0x00] == [0x7C, |der| + 2, 0x82, |der|] + der + [0x90, 0x00];
  }

  /** What a signature request is answered: by the key that arrived, the digest sent, the PIN rule and the touch rule. */
  ghost predicate SignatureAnswer(chip: Chip, s: Card, ops: seq<CardOp>, op: CardOp, slot: Byte, reply: Reply)
    requires op.Transmit?
  {
    var t, a := Run(chip, s, ops), LastArrival(chip, s, ops, slot);
    var digest := if ApduBody(op.apdu).Some? then GaSignRequest(ApduBody(op.apdu).value) else None;
    if !PinMet(chip, s, ops, slot) then reply == Say([0x69, 0x82])
    else if a.None? then reply == Say([0x6A, 0x88])
    else if digest.None? then reply == Say([0x6A, 0x80])
    else if !chip.validScalar(a.value.scalar) then reply == Say([0x6A, 0x88])
    else match chip.sign(a.value.scalar, digest.value)
      case None => reply == Say([0x6A, 0x80])
      case Some(der) =>
        if !TouchMet(t, a.value, slot, op.now) then reply == Reply([0x69, 0x82], Some(t.pad.generation))
        else
          && reply.awaiting.None? && |reply.bytes| > 2
          && (|der| <= 125 ==> reply.bytes == [0x7C, |der| + 2, 0x82, |der|] + der + [0x90, 0x00])
  }

  lemma SignBySlot(chip: Chip, t: Card, a: Option<Arrival>, slot: Byte, body: Option<Bytes>, now: int)
    requires CardContents.Holds(chip, t.keys, slot, a)
    ensures var reply := Sign(chip, t, slot, body, now).reply;
            var digest := if body.Some? then GaSignRequest(body.value) else None;
            if !PinSatisfied(t.keys, t.session, slot) then reply == Say([0x69, 0x82])
            else if a.None? then reply == Say([0x6A, 0x88])
            else if digest.None? then reply == Say([0x6A, 0x80])
            else if !chip.validScalar(a.value.scalar) then reply == Say([0x6A, 0x88])
            else match chip.sign(a.value.scalar, digest.value)
              case None => reply == Say([0x6A, 0x80])
              case Some(der) =>
                if !TouchMet(t, a.value, slot, now) then reply == Reply([0x69, 0x82], Some(t.pad.generation))
                else
                  && reply.awaiting.None? && |reply.bytes| > 2
                  && (|der| <= 125 ==> reply.bytes == [0x7C, |der| + 2, 0x82, |der|] + der + [0x90, 0x00])
  {
    hide PinSatisfied, GaSignRequest, TouchGate, TouchMet, SpendPin;
    if a.Some? {
      GateIsTouchMet(chip, t, a.value, slot, now);
      var digest := if body.Some? then GaSignRequest(body.value) else None;
      if digest.Some? {
        var der := chip.sign(a.value.scalar, digest.value);
        if der.Some? && |der.value| <= 125 { SignatureWrapped(der.value); }
      }
    }
  }

  /**
   * A signature is made exactly for a well-formed request, with the key last arrived in the slot, once
   * the PIN was verified as the policy it arrived with asks, no policy meaning each time in 9C, never
   * in 9E and once per session elsewhere, and once touched as that policy asks.
   */
  lemma SignaturesFollowThePolicy(chip: Chip, s: Card, ops: seq<CardOp>, op: CardOp, slot: Byte)
    requires Initial(s) && Running(Run(chip, s, ops), op) == Some(SignWith(slot))
    ensures SignatureAnswer(chip, s, ops, op, slot, Step(chip, Run(chip, s, ops), op).1)
  {
    hide Execute, Route, ApduBody, Step, Run, LastArrival, Sign, PinMet, TouchMet, GaSignRequest, CardContents.Holds, PinSatisfied, Initial;
    var t, body := Run(chip, s, ops), ApduBody(op.apdu);
    ProvenanceFollowsTheKey(chip, s, ops, slot);
    PinSatisfiedIffMet(chip, s, ops, slot);
    RunningDispatches(chip, t, op);
    ExecuteKeys(chip, t, SignWith(slot), body, op.now, op.drawn);
    SignBySlot(chip, t, LastArrival(chip, s, ops, slot), slot, body, op.now);
  }

  /** The same for a key agreement, with the key in slot 9D and the point sent. */
  ghost predicate AgreementAnswer(chip: Chip, s: Card, ops: seq<CardOp>, op: CardOp, reply: Reply)
    requires op.Transmit?
  {
    var t, a := Run(chip, s, ops), LastArrival(chip, s, ops, 0x9D);
    var point := if ApduBody(op.apdu).Some? then GaEcdhRequest(ApduBody(op.apdu).value) else None;
    if !PinMet(chip, s, ops, 0x9D) then reply == Say([0x69, 0x82])
    else if a.None? then reply == Say([0x6A, 0x88])
    else if point.None? || !chip.onCurve(point.value) then reply == Say([0x6A, 0x80])
    else if !chip.validScalar(a.value.scalar) then reply == Say([0x6A, 0x88])
    else if !TouchMet(t, a.value, 0x9D, op.now) then reply == Reply([0x69, 0x82], Some(t.pad.generation))
    else reply == Say([0x7C, 0x22, 0x82, 0x20] + chip.agree(a.value.scalar, point.value) + [0x90, 0x00])
  }

  lemma AgreeBySlot(chip: Chip, t: Card, a: Option<Arrival>, body: Option<Bytes>, now: int)
    requires CardContents.Holds(chip, t.keys, 0x9D, a)
    ensures var reply := Agree(chip, t, body, now).reply;
            var point := if body.Some? then GaEcdhRequest(body.value) else None;
            if !PinSatisfied(t.keys, t.session, 0x9D) then reply == Say([0x69, 0x82])
            else if a.None? then reply == Say([0x6A, 0x88])
            else if point.None? || !chip.onCurve(point.value) then reply == Say([0x6A, 0x80])
            else if !chip.validScalar(a.value.scalar) then reply == Say([0x6A, 0x88])
            else if !TouchMet(t, a.value, 0x9D, now) then reply == Reply([0x69, 0x82], Some(t.pad.generation))
            else reply == Say([0x7C, 0x22, 0x82, 0x20] + chip.agree(a.value.scalar, point.value) + [0x90, 0x00])
  {
    hide PinSatisfied, GaEcdhRequest, TouchGate, TouchMet, SpendPin;
    if a.Some? { GateIsTouchMet(chip, t, a.value, 0x9D, now); }
  }

  lemma AgreementsFollowThePolicy(chip: Chip, s: Card, ops: seq<CardOp>, op: CardOp)
    requires Initial(s) && Running(Run(chip, s, ops), op) == Some(KeyAgreement)
    ensures AgreementAnswer(chip, s, ops, op, Step(chip, Run(chip, s, ops), op).1)
  {
    hide Execute, Route, ApduBody, Step, Run, LastArrival, Agree, PinMet, TouchMet, GaEcdhRequest, CardContents.Holds, PinSatisfied, Initial;
    var t, body := Run(chip, s, ops), ApduBody(op.apdu);
    ProvenanceFollowsTheKey(chip, s, ops, 0x9D);
    PinSatisfiedIffMet(chip, s, ops, 0x9D);
    RunningDispatches(chip, t, op);
    ExecuteKeys(chip, t, KeyAgreement, body, op.now, op.drawn);
    AgreeBySlot(chip, t, LastArrival(chip, s, ops, 0x9D), body, op.now);
  }

  /**
   * In so many words: a result from a key that arrived with PIN policy 3, or with none in slot 9C, follows
   * an accepted VERIFY with nothing between but VERIFYs and blocked attempts; with policy 2, or none in
   * 9A and 9D, a VERIFY that still counts; with policy 1, or none in 9E, the PIN is never what is missing.
   */
  lemma ResultsFollowVerify(chip: Chip, s: Card, ops: seq<CardOp>, op: CardOp, slot: Byte)
    requires Initial(s) && KeySlot(Run(chip, s, ops), op) == Some(slot)
    ensures var a, reply := LastArrival(chip, s, ops, slot), Step(chip, Run(chip, s, ops), op).1;
            |reply.bytes| > 2 ==>
              && a.Some?
              && (a.value.policy.pin == 3 || (a.value.policy.pin == 0 && slot == 0x9C) ==> exists j: nat :: FreshVerify(chip, s, ops, j))
              && (a.value.policy.pin == 2 || (a.value.policy.pin == 0 && slot in {0x9A, 0x9D}) ==> exists j: nat :: VerifiedSince(chip, s, ops, j))
    ensures var a := LastArrival(chip, s, ops, slot);
            a.Some? && (a.value.policy.pin == 1 || (a.value.policy.pin == 0 && slot == 0x9E)) ==> PinMet(chip, s, ops, slot)
  {
    hide Route, ApduBody, Step, Run, LastArrival, TouchMet, GaSignRequest, GaEcdhRequest, VerifiedSince, FreshVerify, Initial;
    if Running(Run(chip, s, ops), op) == Some(KeyAgreement) {
      AgreementsFollowThePolicy(chip, s, ops, op);
    } else {
      SignaturesFollowThePolicy(chip, s, ops, op, slot);
    }
  }
}
