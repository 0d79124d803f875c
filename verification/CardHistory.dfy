/**
 * What every run of commands keeps on the virtual card: the PIN-always rule, the
 * PIN and PUK guess budget, and key provenance (crates/fibby/src/virtual_card.rs).
 */
module CardHistory {
  import opened Base
  import opened ApduParse
  import opened Card
  import Touch

  /** The command an APDU runs as: none if it is refused for want of an applet, faulted or too short. */
  function Running(s: Card, op: CardOp): Option<Command> {
    if op.Transmit? && !NoApplet(s, op.apdu) && |op.apdu| >= 4 && !Faulted(s, op.apdu[1])
    then Some(Route(s, op.apdu)) else None
  }

  lemma RunningDispatches(chip: Chip, s: Card, op: CardOp)
    requires Running(s, op).Some?
    ensures var (s1, reply) := Execute(chip, s, Running(s, op).value, ApduBody(op.apdu), op.now, op.drawn);
            Step(chip, s, op) ==
            (if IsVerify(op.apdu) || reply.awaiting.Some? then s1
             else s1.(session := s1.session.(commandSinceVerify := true)), reply)
  {
    hide Execute, Route;
  }

  /** Everything else leaves keys, PINs, objects and the PIN verification alone. */
  lemma NotRunning(chip: Chip, s: Card, op: CardOp)
    requires op.Transmit? && Running(s, op).None?
    ensures var (s', reply) := Step(chip, s, op);
            && s'.pins == s.pins && s'.keys == s.keys && s'.objects == s.objects && s'.mgmtKey == s.mgmtKey
            && s'.pad == s.pad && reply.awaiting.None? && |reply.bytes| == 2
            && s'.session == (if NoApplet(s, op.apdu) || IsVerify(op.apdu) then s.session
                              else s.session.(commandSinceVerify := true))
  {
    hide Execute, Route, ApduBody, FirstFault, AfterFault;
    if !NoApplet(s, op.apdu) {
      var (s1, reply) := DispatchCommand(chip, s, op.apdu, op.now, op.drawn);
      assert s1 == s.(faults := s1.faults) && |reply.bytes| == 2 && reply.awaiting.None?;
    }
  }

  // --- what each handler leaves alone -------------------------------------------

  predicate PinCommand(command: Command) {
    command.VerifyPin? || command.ChangePinOrPuk? || command.UnblockPin? || command.Wipe?
  }

  /** No command touches the fault queue; few touch the PINs, the keys or the objects. */
  lemma ExecuteFrame(chip: Chip, s: Card, command: Command, body: Option<Bytes>, now: int, drawn: Bytes)
    ensures var s' := Execute(chip, s, command, body, now, drawn).0;
            && s'.faults == s.faults
            && (!PinCommand(command) ==> s'.pins == s.pins)
            && (!command.GenerateKey? && !command.ImportKey? && !command.Wipe? ==> s'.keys == s.keys)
            && (!command.WriteObject? && !command.Wipe? ==> s'.objects == s.objects)
  {
    hide Verify, ChangeReference, ResetRetry, MgmtAuth, SetMgmtKey, Select, PutData, Generate, Import,
         Sign, Agree, GetData, Attest, Metadata;
  }

  /** The parts of the card the commands below change, and their answers. */
  lemma ExecuteOneOf(chip: Chip, s: Card, command: Command, body: Option<Bytes>, now: int, drawn: Bytes)
    ensures var (s', reply) := Execute(chip, s, command, body, now, drawn);
            match command
            case GenerateKey(slot) => (s'.keys, reply) == (Generate(chip, s, slot, body, drawn).0, Say(Generate(chip, s, slot, body, drawn).1))
            case ImportKey(alg, slot) => (s'.keys, reply) == (Import(chip, s, alg, slot, body).0, Say(Import(chip, s, alg, slot, body).1))
            case VerifyPin => s'.pins == Verify(s.pins, s.session, body).0
            case ChangePinOrPuk(ofPin) => s'.pins == ChangeReference(s.pins, ofPin, body).0
            case UnblockPin => s'.pins == ResetRetry(s.pins, s.session, body).0
            case AttestKey(slot) => reply == Say(Attest(chip, s.keys, slot))
            case ReadMetadata(slot) => reply == Say(Metadata(chip, s.keys, slot))
            case Wipe => s'.pins == FactoryReset(s).0.pins && s'.keys == FactoryReset(s).0.keys && s'.objects == FactoryReset(s).0.objects
            case WriteObject => s'.objects == PutData(s.objects, body).0
            case ReadObject => reply == Say(GetData(chip, s.objects, body))
            case _ => true
  {
    hide FactoryReset, Generate, Import, Attest, Metadata, PutData, GetData, Select, Verify, ChangeReference,
         ResetRetry, Sign, Agree, MgmtAuth, SetMgmtKey;
  }

  // --- touch-blocked attempts ---------------------------------------------------

  lemma BlockedCommand(chip: Chip, s: Card, command: Command, body: Option<Bytes>, now: int, drawn: Bytes)
    requires Execute(chip, s, command, body, now, drawn).1.awaiting.Some?
    ensures Execute(chip, s, command, body, now, drawn) == (s, Reply(SW_TOUCH_TIMEOUT, Some(s.pad.generation)))
  {
    hide GaSignRequest, GaEcdhRequest, GenerateFields, ImportFields, PutRequest;
  }

  /** An attempt that must wait for a touch changes nothing, on the card or on the pad. */
  lemma BlockedAttemptChangesNothing(chip: Chip, s: Card, op: CardOp)
    requires Step(chip, s, op).1.awaiting.Some?
    ensures Step(chip, s, op) == (s, Reply([0x69, 0x82], Some(s.pad.generation)))
  {
    if Running(s, op).Some? {
      RunningDispatches(chip, s, op);
      BlockedCommand(chip, s, Running(s, op).value, ApduBody(op.apdu), op.now, op.drawn);
    } else if op.Transmit? {
      NotRunning(chip, s, op);
    }
  }

  // --- PIN-always -------------------------------------------------------------------

  /** The slot whose private key an operation uses, if it is one. */
  function KeySlot(s: Card, op: CardOp): Option<Byte> {
    match Running(s, op)
    case Some(SignWith(slot)) => Some(slot)
    case Some(KeyAgreement) => Some(0x9D)
    case _ => None
  }

  /** A signature or shared secret came back (a refusal is two bytes) from a PIN-always slot. */
  predicate AlwaysOperation(chip: Chip, s: Card, op: CardOp) {
    KeySlot(s, op).Some? && EffectivePin(s.keys, KeySlot(s, op).value) == PIN_ALWAYS && |Step(chip, s, op).1.bytes| > 2
  }

  predicate VerifyAccepted(s: Card, op: CardOp) {
    Running(s, op) == Some(VerifyPin) && s.pins.pinRetries != 0 && |s.pins.pin| == 8 &&
    ApduBody(op.apdu) == Some(s.pins.pin)
  }

  /** A processed command other than VERIFY or an attempt still waiting for its touch, or a session reset. */
  predicate Intervenes(chip: Chip, s: Card, op: CardOp) {
    match op
    case Transmit(apdu, _, _) => !NoApplet(s, apdu) && !IsVerify(apdu) && Step(chip, s, op).1.awaiting.None?
    case SetPresent(present) => !present && s.inserted
    case PowerDown => true
    case EndTransaction(disposition) => Resets(disposition)
    case _ => false
  }

  predicate Armed(s: Card) { s.session.pinVerified && !s.session.commandSinceVerify }

  lemma ReleasedOnlyWhenArmed(chip: Chip, s: Card, op: CardOp)
    requires AlwaysOperation(chip, s, op)
    ensures Armed(s) && Step(chip, s, op).1.awaiting.None? && !IsVerify(op.apdu)
  {
    hide GaSignRequest, GaEcdhRequest;
    RunningDispatches(chip, s, op);
  }

  lemma VerifyingCommand(chip: Chip, s: Card, op: CardOp)
    requires Running(s, op).Some? && IsVerify(op.apdu) && |s.pins.pin| == 8
    ensures var s' := Step(chip, s, op).0;
            if VerifyAccepted(s, op) then Armed(s') else s'.session == s.session
  {
    hide Route, ApduBody, Sign, Agree, Generate, Import, Select, FactoryReset, MgmtAuth, SetMgmtKey, GetData, PutData,
         Attest, Metadata, ChangeReference, ResetRetry;
    RunningDispatches(chip, s, op);
    VerifyRoutes(s, op.apdu);
  }

  lemma VerifyRoutes(s: Card, apdu: Bytes)
    requires |apdu| >= 4 && IsVerify(apdu)
    ensures Route(s, apdu) == VerifyPin || Route(s, apdu).Refuse?
  {
    hide ApduBody, GaSignRequest;
  }

  /** One step: only an accepted VERIFY arms the card, and whatever intervenes disarms it. */
  lemma ArmingStep(chip: Chip, s: Card, op: CardOp)
    requires |s.pins.pin| == 8
    ensures var s' := Step(chip, s, op).0;
            && (Armed(s') ==> VerifyAccepted(s, op) || (Armed(s) && !Intervenes(chip, s, op)))
            && (VerifyAccepted(s, op) ==> Armed(s'))
            && (AlwaysOperation(chip, s, op) ==> Armed(s) && !Armed(s') && !VerifyAccepted(s, op))
  {
    if AlwaysOperation(chip, s, op) { ReleasedOnlyWhenArmed(chip, s, op); }
    if Step(chip, s, op).1.awaiting.Some? { BlockedAttemptChangesNothing(chip, s, op); }
    if Running(s, op).Some? {
      if IsVerify(op.apdu) {
        VerifyingCommand(chip, s, op);
      } else {
        hide Execute;
        RunningDispatches(chip, s, op);
      }
    } else if op.Transmit? {
      NotRunning(chip, s, op);
    }
  }

  function Verifies(chip: Chip, s: Card, ops: seq<CardOp>): nat {
    if ops == [] then 0
    else
      var n := |ops| - 1;
      Verifies(chip, s, ops[..n]) + (if VerifyAccepted(Run(chip, s, ops[..n]), ops[n]) then 1 else 0)
  }

  function AlwaysOperations(chip: Chip, s: Card, ops: seq<CardOp>): nat {
    if ops == [] then 0
    else
      var n := |ops| - 1;
      AlwaysOperations(chip, s, ops[..n]) + (if AlwaysOperation(chip, Run(chip, s, ops[..n]), ops[n]) then 1 else 0)
  }

  /** Operation `j` verified the PIN and nothing after it intervened. */
  predicate FreshVerify(chip: Chip, s: Card, ops: seq<CardOp>, j: nat) {
    && j < |ops| && VerifyAccepted(At(chip, s, ops, j), ops[j])
    && forall m {:trigger ops[m]} :: j < m < |ops| ==> !Intervenes(chip, At(chip, s, ops, m), ops[m])
  }

  lemma FreshVerifyLasts(chip: Chip, s: Card, ops: seq<CardOp>, j: nat)
    requires ops != [] && FreshVerify(chip, s, ops[..|ops| - 1], j)
    requires !Intervenes(chip, Run(chip, s, ops[..|ops| - 1]), ops[|ops| - 1])
    ensures FreshVerify(chip, s, ops, j)
  {
    hide Step, VerifyAccepted, Intervenes, Run;
    var n := |ops| - 1;
    forall m | 0 <= m < n ensures ops[..n][m] == ops[m] && ops[..n][..m] == ops[..m] {}
    forall m | j < m < |ops| ensures !Intervenes(chip, At(chip, s, ops, m), ops[m]) {
      if m < n { assert !Intervenes(chip, At(chip, s, ops[..n], m), ops[..n][m]); }
    }
  }

  lemma {:induction false} ArmedMeansFresh(chip: Chip, s: Card, ops: seq<CardOp>)
    requires Initial(s)
    ensures Armed(Run(chip, s, ops)) ==> exists j: nat :: FreshVerify(chip, s, ops, j)
    ensures AlwaysOperations(chip, s, ops) + (if Armed(Run(chip, s, ops)) then 1 else 0) <= Verifies(chip, s, ops)
  {
    hide Step;
    if ops != [] {
      var n := |ops| - 1;
      var before, last := ops[..n], ops[n];
      ArmedMeansFresh(chip, s, before);
      PinsStayEightBytes(chip, s, before);
      ArmingStep(chip, Run(chip, s, before), last);
      if Armed(Run(chip, s, ops)) {
        if VerifyAccepted(Run(chip, s, before), last) {
          assert FreshVerify(chip, s, ops, n);
        } else {
          var j: nat :| FreshVerify(chip, s, before, j);
          FreshVerifyLasts(chip, s, ops, j);
        }
      }
    }
  }

  /**
   * Every signature or key agreement on a PIN-always slot follows a VERIFY that was
   * accepted with no processed command in between but VERIFYs and touch-blocked attempts.
   */
  lemma AlwaysOperationFollowsVerify(chip: Chip, s: Card, ops: seq<CardOp>, k: nat)
    requires Initial(s) && k < |ops| && AlwaysOperation(chip, At(chip, s, ops, k), ops[k])
    ensures exists j: nat :: FreshVerify(chip, s, ops[..k], j)
  {
    PinsStayEightBytes(chip, s, ops[..k]);
    ArmingStep(chip, At(chip, s, ops, k), ops[k]);
    ArmedMeansFresh(chip, s, ops[..k]);
  }

  /** One VERIFY pays for at most one PIN-always operation. */
  lemma OneVerifyPerAlwaysOperation(chip: Chip, s: Card, ops: seq<CardOp>)
    requires Initial(s)
    ensures AlwaysOperations(chip, s, ops) <= Verifies(chip, s, ops)
  {
    ArmedMeansFresh(chip, s, ops);
  }

  // --- the guess budget ---------------------------------------------------------------

  /** What a command means to a retry counter. */
  datatype CounterEvent = Untouched | WrongGuess | Restored

  /** Presenting `given` against `stored` while `retries` are left. */
  function Guess(given: Bytes, stored: Bytes, retries: Byte): CounterEvent {
    if retries == 0 then Untouched else if given == stored then Restored else WrongGuess
  }

  /** A change or unblock request is `<old8> <new8>`. */
  function FirstHalf(body: Option<Bytes>): Option<Bytes> {
    if body.Some? && |body.value| == 16 then Some(body.value[..8]) else None
  }

  function PinEvent(p: Pins, command: Command, body: Option<Bytes>): CounterEvent {
    match command
    case VerifyPin => if body.Some? && |body.value| == 8 then Guess(body.value, p.pin, p.pinRetries) else Untouched
    case ChangePinOrPuk(ofPin) =>
      if ofPin && FirstHalf(body).Some? then Guess(FirstHalf(body).value, p.pin, p.pinRetries) else Untouched
    case UnblockPin => if FirstHalf(body) == Some(p.puk) && p.pukRetries != 0 then Restored else Untouched
    case Wipe => if BothBlocked(p) then Restored else Untouched
    case _ => Untouched
  }

  function PukEvent(p: Pins, command: Command, body: Option<Bytes>): CounterEvent {
    match command
    case ChangePinOrPuk(ofPin) =>
      if !ofPin && FirstHalf(body).Some? then Guess(FirstHalf(body).value, p.puk, p.pukRetries) else Untouched
    case UnblockPin => if FirstHalf(body).Some? then Guess(FirstHalf(body).value, p.puk, p.pukRetries) else Untouched
    case Wipe => if BothBlocked(p) then Restored else Untouched
    case _ => Untouched
  }

  function PinEventAt(s: Card, op: CardOp): CounterEvent {
    if Running(s, op).Some? then PinEvent(s.pins, Running(s, op).value, ApduBody(op.apdu)) else Untouched
  }

  function PukEventAt(s: Card, op: CardOp): CounterEvent {
    if Running(s, op).Some? then PukEvent(s.pins, Running(s, op).value, ApduBody(op.apdu)) else Untouched
  }

  predicate UnblockAccepted(s: Card, op: CardOp) {
    Running(s, op) == Some(UnblockPin) && PukEventAt(s, op) == Restored
  }

  predicate Wiped(s: Card, op: CardOp) {
    Running(s, op) == Some(Wipe) && BothBlocked(s.pins)
  }

  predicate EightBytes(p: Pins) { |p.pin| == 8 && |p.puk| == 8 }

  predicate CounterMoved(before: Byte, event: CounterEvent, after: Byte) {
    match event
    case Untouched => after == before
    case WrongGuess => after == before - 1
    case Restored => after == DEFAULT_RETRIES
  }

  predicate CountersFollow(before: Pins, command: Command, body: Option<Bytes>, after: Pins) {
    && EightBytes(after)
    && CounterMoved(before.pinRetries, PinEvent(before, command, body), after.pinRetries)
    && CounterMoved(before.pukRetries, PukEvent(before, command, body), after.pukRetries)
  }

  lemma VerifyCounters(s: Card, body: Option<Bytes>)
    requires EightBytes(s.pins)
    ensures CountersFollow(s.pins, VerifyPin, body, Verify(s.pins, s.session, body).0)
  {
  }

  lemma ChangeCounters(s: Card, ofPin: bool, body: Option<Bytes>)
    requires EightBytes(s.pins)
    ensures CountersFollow(s.pins, ChangePinOrPuk(ofPin), body, ChangeReference(s.pins, ofPin, body).0)
  {
  }

  lemma UnblockCounters(s: Card, body: Option<Bytes>)
    requires EightBytes(s.pins)
    ensures CountersFollow(s.pins, UnblockPin, body, ResetRetry(s.pins, s.session, body).0)
  {
  }

  lemma WipeCounters(s: Card, body: Option<Bytes>)
    requires EightBytes(s.pins)
    ensures CountersFollow(s.pins, Wipe, body, FactoryReset(s).0.pins)
  {
  }

  lemma CountersCommand(chip: Chip, s: Card, command: Command, body: Option<Bytes>, now: int, drawn: Bytes)
    requires EightBytes(s.pins)
    ensures CountersFollow(s.pins, command, body, Execute(chip, s, command, body, now, drawn).0.pins)
  {
    hide Execute;
    ExecuteFrame(chip, s, command, body, now, drawn);
    ExecuteOneOf(chip, s, command, body, now, drawn);
    if PinCommand(command) {
      hide CountersFollow, Verify, ChangeReference, ResetRetry, FactoryReset;
      VerifyCounters(s, body);
      ChangeCounters(s, command == ChangePinOrPuk(true), body);
      UnblockCounters(s, body);
      WipeCounters(s, body);
    }
  }

  /** What one operation does to the counters, in terms of what was presented to the card. */
  lemma CountersStep(chip: Chip, s: Card, op: CardOp)
    requires EightBytes(s.pins)
    ensures var p := Step(chip, s, op).0.pins;
            && EightBytes(p)
            && CounterMoved(s.pins.pinRetries, PinEventAt(s, op), p.pinRetries)
            && CounterMoved(s.pins.pukRetries, PukEventAt(s, op), p.pukRetries)
  {
    hide Execute, Dispatch, PinEvent, PukEvent;
    if Running(s, op).Some? {
      RunningDispatches(chip, s, op);
      CountersCommand(chip, s, Running(s, op).value, ApduBody(op.apdu), op.now, op.drawn);
    } else if op.Transmit? {
      NotRunning(chip, s, op);
    }
  }

  /** The stored PIN and PUK are always eight bytes. */
  lemma {:induction false} PinsStayEightBytes(chip: Chip, s: Card, ops: seq<CardOp>)
    requires EightBytes(s.pins)
    ensures EightBytes(Run(chip, s, ops).pins)
  {
    hide Step;
    if ops != [] {
      PinsStayEightBytes(chip, s, ops[..|ops| - 1]);
      CountersStep(chip, Run(chip, s, ops[..|ops| - 1]), ops[|ops| - 1]);
    }
  }

  /** A counter's history: the value it was last restored to and the wrong guesses since. */
  datatype Ledger = Ledger(restored: nat, wrong: nat)

  function Note(ledger: Ledger, event: CounterEvent): Ledger {
    match event
    case Untouched => ledger
    case WrongGuess => ledger.(wrong := ledger.wrong + 1)
    case Restored => Ledger(DEFAULT_RETRIES, 0)
  }

  function PinLedger(chip: Chip, s: Card, ops: seq<CardOp>): Ledger {
    if ops == [] then Ledger(s.pins.pinRetries, 0)
    else
      var n := |ops| - 1;
      Note(PinLedger(chip, s, ops[..n]), PinEventAt(Run(chip, s, ops[..n]), ops[n]))
  }

  function PukLedger(chip: Chip, s: Card, ops: seq<CardOp>): Ledger {
    if ops == [] then Ledger(s.pins.pukRetries, 0)
    else
      var n := |ops| - 1;
      Note(PukLedger(chip, s, ops[..n]), PukEventAt(Run(chip, s, ops[..n]), ops[n]))
  }

  /**
   * Wrong guesses since a counter was last restored plus the retries it has left are
   * what it was restored to; so at most three wrong PINs or PUKs are ever tried between restores.
   */
  lemma {:induction false} GuessBudget(chip: Chip, s: Card, ops: seq<CardOp>)
    requires Initial(s)
    ensures var pin := PinLedger(chip, s, ops);
            Run(chip, s, ops).pins.pinRetries + pin.wrong == pin.restored <= DEFAULT_RETRIES
    ensures var puk := PukLedger(chip, s, ops);
            Run(chip, s, ops).pins.pukRetries + puk.wrong == puk.restored <= DEFAULT_RETRIES
  {
    hide Step, PinEventAt, PukEventAt;
    if ops != [] {
      var n := |ops| - 1;
      GuessBudget(chip, s, ops[..n]);
      PinsStayEightBytes(chip, s, ops[..n]);
      CountersStep(chip, Run(chip, s, ops[..n]), ops[n]);
    }
  }

  /** A blocked PIN comes back exactly when the right PUK or a factory reset is accepted. */
  lemma BlockedPinIsRevivedOnlyByPukOrWipe(chip: Chip, s: Card, op: CardOp)
    requires EightBytes(s.pins) && s.pins.pinRetries == 0
    ensures Step(chip, s, op).0.pins.pinRetries != 0 <==> UnblockAccepted(s, op) || Wiped(s, op)
  {
    hide Step, Route, ApduBody;
    CountersStep(chip, s, op);
  }

  /** Once the PUK is blocked it stays blocked, and a blocked PIN with it, until a factory reset is accepted. */
  lemma {:induction false} BlockedPukIsAbsorbing(chip: Chip, s: Card, ops: seq<CardOp>)
    requires EightBytes(s.pins) && s.pins.pukRetries == 0
    requires forall k {:trigger ops[k]} :: 0 <= k < |ops| ==> !Wiped(At(chip, s, ops, k), ops[k])
    ensures Run(chip, s, ops).pins.pukRetries == 0
    ensures s.pins.pinRetries == 0 ==> Run(chip, s, ops).pins.pinRetries == 0
  {
    hide Step, Route, ApduBody;
    if ops != [] {
      var n := |ops| - 1;
      forall k | 0 <= k < n ensures !Wiped(At(chip, s, ops[..n], k), ops[..n][k]) {
        assert ops[..n][..k] == ops[..k] && ops[..n][k] == ops[k];
      }
      BlockedPukIsAbsorbing(chip, s, ops[..n]);
      PinsStayEightBytes(chip, s, ops[..n]);
      CountersStep(chip, Run(chip, s, ops[..n]), ops[n]);
      assert !Wiped(At(chip, s, ops, n), ops[n]);
    }
  }
}
