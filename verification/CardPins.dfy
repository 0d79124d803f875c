/**
 * Which PIN, PUK and management key the card holds after any run, and what it answers to whoever
 * presents one (crates/fibby/src/virtual_card.rs).
 */
module CardPins {
  import opened Base
  import opened ApduParse
  import opened Card
  import opened CardHistory
  import opened CardCommands

  // --- the values, from the history of what was answered ------------------------------

  /** A command of that kind ran and answered 90 00. */
  predicate Succeeded(chip: Chip, s: Card, op: CardOp, command: Command) {
    Running(s, op) == Some(command) && Step(chip, s, op).1.bytes == [0x90, 0x00]
  }

  /** The second eight of sixteen bytes. */
  function SecondHalf(apdu: Bytes): Bytes {
    var body := ApduBody(apdu);
    if body.Some? && |body.value| == 16 then body.value[8..] else []
  }

  /** The PIN after `op`, if it was `before`. */
  function PinAfter(chip: Chip, s: Card, op: CardOp, before: Bytes): Bytes {
    if Succeeded(chip, s, op, Wipe) then [0x31, 0x32, 0x33, 0x34, 0x35, 0x36, 0xFF, 0xFF]
    else if Succeeded(chip, s, op, ChangePinOrPuk(true)) || Succeeded(chip, s, op, UnblockPin) then SecondHalf(op.apdu)
    else before
  }

  function PukAfter(chip: Chip, s: Card, op: CardOp, before: Bytes): Bytes {
    if Succeeded(chip, s, op, Wipe) then [0x31, 0x32, 0x33, 0x34, 0x35, 0x36, 0x37, 0x38]
    else if Succeeded(chip, s, op, ChangePinOrPuk(false)) then SecondHalf(op.apdu)
    else before
  }

  /** The PIN last set by an accepted change or unblock, or by a factory reset, or else the initial one. */
  function PinValue(chip: Chip, s: Card, ops: seq<CardOp>): Bytes {
    if ops == [] then s.pins.pin
    else
      var n := |ops| - 1;
      PinAfter(chip, Run(chip, s, ops[..n]), ops[n], PinValue(chip, s, ops[..n]))
  }

  function PukValue(chip: Chip, s: Card, ops: seq<CardOp>): Bytes {
    if ops == [] then s.pins.puk
    else
      var n := |ops| - 1;
      PukAfter(chip, Run(chip, s, ops[..n]), ops[n], PukValue(chip, s, ops[..n]))
  }

  /** The values after one command about them. */
  lemma ValuesOfCommand(chip: Chip, s: Card, command: Command, body: Option<Bytes>, now: int, drawn: Bytes)
    requires PinCommand(command)
    ensures var pins := Execute(chip, s, command, body, now, drawn).0.pins;
            var done := Execute(chip, s, command, body, now, drawn).1.bytes == [0x90, 0x00];
            var half := if body.Some? && |body.value| == 16 then body.value[8..] else [];
            && pins.pin == (if done && command.Wipe? then [0x31, 0x32, 0x33, 0x34, 0x35, 0x36, 0xFF, 0xFF]
                            else if done && (command == ChangePinOrPuk(true) || command.UnblockPin?) then half else s.pins.pin)
            && pins.puk == (if done && command.Wipe? then [0x31, 0x32, 0x33, 0x34, 0x35, 0x36, 0x37, 0x38]
                            else if done && command == ChangePinOrPuk(false) then half else s.pins.puk)
  {
    hide Execute;
    ExecutePins(chip, s, command, body, now, drawn);
  }

  lemma ValuesStep(chip: Chip, s: Card, op: CardOp)
    ensures Step(chip, s, op).0.pins.pin == PinAfter(chip, s, op, s.pins.pin)
    ensures Step(chip, s, op).0.pins.puk == PukAfter(chip, s, op, s.pins.puk)
  {
    if Running(s, op).Some? {
      RunningValues(chip, s, op);
    } else {
      hide Dispatch;
      if op.Transmit? { NotRunning(chip, s, op); }
    }
  }

  lemma RunningValues(chip: Chip, s: Card, op: CardOp)
    requires Running(s, op).Some?
    ensures Step(chip, s, op).0.pins.pin == PinAfter(chip, s, op, s.pins.pin)
    ensures Step(chip, s, op).0.pins.puk == PukAfter(chip, s, op, s.pins.puk)
  {
    hide Execute, Route, ApduBody, IsVerify, Step;
    var command, body := Running(s, op).value, ApduBody(op.apdu);
    RunningDispatches(chip, s, op);
    ExecuteFrame(chip, s, command, body, op.now, op.drawn);
    if PinCommand(command) { ValuesOfCommand(chip, s, command, body, op.now, op.drawn); }
  }

  /** In every reachable state the stored PIN and PUK are the ones the history of answers says. */
  lemma {:induction false} ValuesFollowTheAnswers(chip: Chip, s: Card, ops: seq<CardOp>)
    ensures Run(chip, s, ops).pins.pin == PinValue(chip, s, ops) && Run(chip, s, ops).pins.puk == PukValue(chip, s, ops)
  {
    hide Step, PinAfter, PukAfter;
    if ops != [] {
      ValuesFollowTheAnswers(chip, s, ops[..|ops| - 1]);
      ValuesStep(chip, Run(chip, s, ops[..|ops| - 1]), ops[|ops| - 1]);
    }
  }

  // --- the answers, from the same history ---------------------------------------------------

  /** Retries left: what the counter was last restored to, less the wrong guesses since. */
  function Left(ledger: Ledger): int { ledger.restored - ledger.wrong }

  /** `63 Cx`. */
  function TriesLeft(n: int): seq<int> { [0x63, 0xC0 + n] }

  /** What presenting `given` against `value` with `left` retries is answered when it is wrong. */
  function WrongVerify(left: int): seq<int> { if left <= 1 then [0x69, 0x83] else TriesLeft(left - 1) }

  /**
   * VERIFY accepts exactly the PIN of the history while retries are left, and says how many are
   * left otherwise; without a body it says whether the session is verified.
   */
  lemma VerifyAnswers(chip: Chip, s: Card, ops: seq<CardOp>, op: CardOp)
    requires Initial(s) && Running(Run(chip, s, ops), op) == Some(VerifyPin)
    ensures var t, left := Run(chip, s, ops), Left(PinLedger(chip, s, ops));
            var reply, t' := Step(chip, t, op).1.bytes, Step(chip, t, op).0;
            && 0 <= left <= 3
            && match ApduBody(op.apdu)
               case None => reply == (if t.session.pinVerified then [0x90, 0x00] else TriesLeft(left))
               case Some(given) =>
                 if |given| != 8 then reply == [0x6A, 0x80]
                 else if left > 0 && given == PinValue(chip, s, ops) then
                   reply == [0x90, 0x00] && t'.session.pinVerified && t'.pins.pinRetries == 3
                 else reply == WrongVerify(left)
  {
    hide Execute, Route, ApduBody, Step, Run, PinValue, PinLedger, PukLedger;
    var t, body := Run(chip, s, ops), ApduBody(op.apdu);
    GuessBudget(chip, s, ops);
    ValuesFollowTheAnswers(chip, s, ops);
    RunningDispatches(chip, t, op);
    ExecutePins(chip, t, VerifyPin, body, op.now, op.drawn);
  }

  /** What a change or unblock answers, given the value it must present and the retries it has. */
  function Exchange(body: Option<Bytes>, value: Bytes, left: int): seq<int> {
    if body.None? || |body.value| != 16 then [0x6A, 0x80]
    else if left == 0 then [0x69, 0x83]
    else if body.value[..8] != value then TriesLeft(left - 1)
    else [0x90, 0x00]
  }

  /** CHANGE REFERENCE DATA for the PIN asks for the PIN, for the PUK the PUK. */
  lemma ChangeAnswers(chip: Chip, s: Card, ops: seq<CardOp>, op: CardOp, ofPin: bool)
    requires Initial(s) && Running(Run(chip, s, ops), op) == Some(ChangePinOrPuk(ofPin))
    ensures Step(chip, Run(chip, s, ops), op).1.bytes ==
            if ofPin then Exchange(ApduBody(op.apdu), PinValue(chip, s, ops), Left(PinLedger(chip, s, ops)))
            else Exchange(ApduBody(op.apdu), PukValue(chip, s, ops), Left(PukLedger(chip, s, ops)))
  {
    hide Execute, Route, ApduBody, Step, Run, PinValue, PukValue, PinLedger, PukLedger;
    var t, body := Run(chip, s, ops), ApduBody(op.apdu);
    GuessBudget(chip, s, ops);
    ValuesFollowTheAnswers(chip, s, ops);
    RunningDispatches(chip, t, op);
    ExecutePins(chip, t, ChangePinOrPuk(ofPin), body, op.now, op.drawn);
  }

  /** RESET RETRY COUNTER asks for the PUK. */
  lemma UnblockAnswers(chip: Chip, s: Card, ops: seq<CardOp>, op: CardOp)
    requires Initial(s) && Running(Run(chip, s, ops), op) == Some(UnblockPin)
    ensures Step(chip, Run(chip, s, ops), op).1.bytes ==
            Exchange(ApduBody(op.apdu), PukValue(chip, s, ops), Left(PukLedger(chip, s, ops)))
  {
    hide Execute, Route, ApduBody, Step, Run, PinValue, PukValue, PinLedger, PukLedger;
    var t, body := Run(chip, s, ops), ApduBody(op.apdu);
    GuessBudget(chip, s, ops);
    ValuesFollowTheAnswers(chip, s, ops);
    RunningDispatches(chip, t, op);
    ExecutePins(chip, t, UnblockPin, body, op.now, op.drawn);
  }

  /** A factory reset is accepted exactly while both counters are blocked. */
  lemma WipeAnswers(chip: Chip, s: Card, ops: seq<CardOp>, op: CardOp)
    requires Initial(s) && Running(Run(chip, s, ops), op) == Some(Wipe)
    ensures Step(chip, Run(chip, s, ops), op).1.bytes ==
            if Left(PinLedger(chip, s, ops)) == 0 && Left(PukLedger(chip, s, ops)) == 0 then [0x90, 0x00] else [0x69, 0x85]
  {
    hide Execute, Route, ApduBody, Step, Run, PinValue, PukValue, PinLedger, PukLedger;
    var t, body := Run(chip, s, ops), ApduBody(op.apdu);
    GuessBudget(chip, s, ops);
    RunningDispatches(chip, t, op);
    ExecutePins(chip, t, Wipe, body, op.now, op.drawn);
  }

  // --- from one command to the next -----------------------------------------------------------

  function VerifyApdu(pin: Bytes): Bytes
    requires |pin| == 8
  {
    [0x00, 0x20, 0x00, 0x80, 0x08] + pin
  }

  function ChangePinApdu(given: Bytes, renewed: Bytes): Bytes
    requires |given| == |renewed| == 8
  {
    [0x00, 0x24, 0x00, 0x80, 0x10] + given + renewed
  }

  lemma PinApdusRun(k: Card, given: Bytes, renewed: Bytes, now: int)
    requires Plain(k) && |given| == |renewed| == 8
    ensures var op := Transmit(ChangePinApdu(given, renewed), now, []);
            Running(k, op) == Some(ChangePinOrPuk(true)) && ApduBody(op.apdu) == Some(given + renewed)
    ensures var op := Transmit(VerifyApdu(given), now, []); Running(k, op) == Some(VerifyPin) && ApduBody(op.apdu) == Some(given)
  {
    hide ApduBody, Route;
    var change, verify := Header(0x00, 0x24, 0x00, 0x80), Header(0x00, 0x20, 0x00, 0x80);
    PlainCommand(k, change, given + renewed, now, []);
    PlainCommand(k, verify, given, now, []);
    assert ShortApdu(change, given + renewed, []) == ChangePinApdu(given, renewed);
    assert ShortApdu(verify, given, []) == VerifyApdu(given);
    PinHeaders(k, ChangePinApdu(given, renewed));
    PinHeaders(k, VerifyApdu(given));
  }

  /**
   * The whole exchange in bytes: changing the PIN from what it is succeeds while retries are
   * left, and the next VERIFY is accepted with the new PIN and with no other.
   */
  lemma ChangedPinIsTheOneAsked(
      chip: Chip, s: Card, ops: seq<CardOp>, renewed: Bytes, tried: Bytes, now: int, later: int)
    requires Initial(s) && Plain(Run(chip, s, ops)) && |renewed| == |tried| == 8 && Left(PinLedger(chip, s, ops)) > 0
    ensures |PinValue(chip, s, ops)| == 8
    ensures var change := Transmit(ChangePinApdu(PinValue(chip, s, ops), renewed), now, []);
            var (t, reply) := Step(chip, Run(chip, s, ops), change);
            && reply.bytes == [0x90, 0x00] && PinValue(chip, s, ops + [change]) == renewed
            && Step(chip, t, Transmit(VerifyApdu(tried), later, [])).1.bytes ==
               if tried == renewed then [0x90, 0x00] else [0x63, 0xC2]
  {
    hide Step, ApduBody, Route, PinLedger, PukLedger, ChangePinApdu, VerifyApdu, Initial;
    var t0, pin := Run(chip, s, ops), PinValue(chip, s, ops);
    EightByteValues(chip, s, ops);
    var change := Transmit(ChangePinApdu(pin, renewed), now, []);
    var all := ops + [change];
    PinApdusRun(t0, pin, renewed, now);
    ChangeAnswers(chip, s, ops, change, true);
    assert (pin + renewed)[..8] == pin && (pin + renewed)[8..] == renewed;
    assert all[..|all| - 1] == ops;
    assert Run(chip, s, all) == Step(chip, t0, change).0;
    ChangedState(chip, s, ops, change);
    PinApdusRun(Run(chip, s, all), tried, tried, later);
    VerifyAnswers(chip, s, all, Transmit(VerifyApdu(tried), later, []));
  }

  lemma EightByteValues(chip: Chip, s: Card, ops: seq<CardOp>)
    requires Initial(s)
    ensures |PinValue(chip, s, ops)| == 8 && |PukValue(chip, s, ops)| == 8
  {
    hide Run, PinValue, PukValue;
    PinsStayEightBytes(chip, s, ops);
    ValuesFollowTheAnswers(chip, s, ops);
  }

  /** An accepted change leaves the card as ready as it was, with the retries restored. */
  lemma ChangedState(chip: Chip, s: Card, ops: seq<CardOp>, change: CardOp)
    requires Initial(s) && Plain(Run(chip, s, ops)) && Succeeded(chip, Run(chip, s, ops), change, ChangePinOrPuk(true))
    ensures Plain(Run(chip, s, ops + [change])) && Left(PinLedger(chip, s, ops + [change])) == 3
  {
    hide Execute, Route, ApduBody, Step, PinLedger, PukLedger, IsVerify;
    var t, all := Run(chip, s, ops), ops + [change];
    assert all[..|all| - 1] == ops;
    var body := ApduBody(change.apdu);
    RunningDispatches(chip, t, change);
    ExecutePins(chip, t, ChangePinOrPuk(true), body, change.now, change.drawn);
    ChangeKeepsTheRest(chip, t, true, body, change.now, change.drawn);
    GuessBudget(chip, s, all);
  }

  lemma ChangeKeepsTheRest(chip: Chip, s: Card, ofPin: bool, body: Option<Bytes>, now: int, drawn: Bytes)
    ensures var s' := Execute(chip, s, ChangePinOrPuk(ofPin), body, now, drawn).0; s' == s.(pins := s'.pins)
  {
    hide ChangeReference;
  }

  // --- the management key --------------------------------------------------------------------------

  /** The management key last set by an accepted rotation or by a factory reset, or else the initial one. */
  function MgmtKeyValue(chip: Chip, s: Card, ops: seq<CardOp>): Bytes {
    if ops == [] then s.mgmtKey
    else
      var n := |ops| - 1;
      MgmtKeyAfter(chip, Run(chip, s, ops[..n]), ops[n], MgmtKeyValue(chip, s, ops[..n]))
  }

  function MgmtKeyAfter(chip: Chip, s: Card, op: CardOp, before: Bytes): Bytes {
    if Succeeded(chip, s, op, Wipe) then [1, 2, 3, 4, 5, 6, 7, 8, 1, 2, 3, 4, 5, 6, 7, 8, 1, 2, 3, 4, 5, 6, 7, 8]
    else if Succeeded(chip, s, op, RotateMgmtKey) then Last24(op.apdu)
    else before
  }

  /** What follows the three bytes 03 9B 18 of a rotation. */
  function Last24(apdu: Bytes): Bytes {
    var body := ApduBody(apdu);
    if body.Some? && |body.value| == 27 then body.value[3..] else []
  }

  lemma ExecuteRotation(chip: Chip, s: Card, command: Command, body: Option<Bytes>, now: int, drawn: Bytes)
    ensures var s' := Execute(chip, s, command, body, now, drawn).0;
            var reply := Execute(chip, s, command, body, now, drawn).1;
            && (command.RotateMgmtKey? ==>
                  && s'.mgmtKey == SetMgmtKey(s.mgmtKey, s.session.mgmtAuthenticated, body).0
                  && reply.bytes == SetMgmtKey(s.mgmtKey, s.session.mgmtAuthenticated, body).1)
            && (command.Wipe? ==> s' == FactoryReset(s).0 && reply.bytes == FactoryReset(s).1)
            && (!command.RotateMgmtKey? && !command.Wipe? ==> s'.mgmtKey == s.mgmtKey)
  {
    hide Sign, Agree, MgmtAuth, SetMgmtKey, GetData, PutData, Attest, Metadata, Verify, ChangeReference, ResetRetry, Generate,
         Import, Select, FactoryReset;
  }

  lemma RunningMgmtKey(chip: Chip, s: Card, op: CardOp)
    requires Running(s, op).Some?
    ensures Step(chip, s, op).0.mgmtKey == MgmtKeyAfter(chip, s, op, s.mgmtKey)
    ensures Running(s, op) == Some(RotateMgmtKey) ==>
              Step(chip, s, op).1.bytes ==
              if !s.session.mgmtAuthenticated then [0x69, 0x82]
              else if ApduBody(op.apdu).Some? && |ApduBody(op.apdu).value| == 27 && ApduBody(op.apdu).value[..3] == [0x03, 0x9B, 0x18]
              then [0x90, 0x00] else [0x6A, 0x80]
  {
    hide Execute, Route, ApduBody, IsVerify, Step;
    RunningDispatches(chip, s, op);
    ExecuteRotation(chip, s, Running(s, op).value, ApduBody(op.apdu), op.now, op.drawn);
  }

  lemma MgmtKeyStep(chip: Chip, s: Card, op: CardOp)
    ensures Step(chip, s, op).0.mgmtKey == MgmtKeyAfter(chip, s, op, s.mgmtKey)
  {
    if Running(s, op).Some? {
      RunningMgmtKey(chip, s, op);
    } else {
      hide Dispatch;
      if op.Transmit? { NotRunning(chip, s, op); }
    }
  }

  /** In every reachable state the management key is the 24 bytes of the last accepted rotation since the last factory reset. */
  lemma {:induction false} MgmtKeyFollowsTheAnswers(chip: Chip, s: Card, ops: seq<CardOp>)
    ensures Run(chip, s, ops).mgmtKey == MgmtKeyValue(chip, s, ops)
  {
    hide Step, MgmtKeyAfter;
    if ops != [] {
      MgmtKeyFollowsTheAnswers(chip, s, ops[..|ops| - 1]);
      MgmtKeyStep(chip, Run(chip, s, ops[..|ops| - 1]), ops[|ops| - 1]);
    }
  }
}
