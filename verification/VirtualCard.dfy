/**
 * The virtual card as an object whose handlers update its fields step by step
 * (crates/fibby/src/virtual_card.rs). Every method is proved against `Card`.
 */
module VirtualCard {
  import opened Base
  import opened ApduParse
  import opened C = Card
  import Touch

  class VirtualCard {
    const chip: Chip
    const touch: Touch.TouchPad
    var inserted: bool
    var eventCounter: nat
    var requireSelect: bool
    var autoTouch: bool
    var clockSkew: int
    var pins: Pins
    var session: Session
    var keys: Keys
    var generateOverrides: map<Byte, Bytes>
    var mgmtKey: Bytes
    var objects: map<Bytes, Bytes>
    var faults: seq<Fault>
    /** Set by a private-key operation that needs a touch: the generation to wait on. */
    var touchBlocked: Option<nat>

    function State(): Card
      reads this, touch
    {
      C.Card(inserted, eventCounter, requireSelect, autoTouch, clockSkew, pins, session, keys,
             generateOverrides, mgmtKey, objects, faults, touch.State())
    }

    constructor (chip: Chip)
      ensures Initial(State()) && fresh(touch) && this.chip == chip
      ensures pins == DefaultPins() && keys == NO_KEYS && objects == map[] && mgmtKey == DefaultMgmtKey()
      ensures inserted && !session.powered
    {
      this.chip := chip;
      touch := new Touch.TouchPad();
      inserted, eventCounter, requireSelect, autoTouch, clockSkew := true, 0, false, false, 0;
      pins, keys, mgmtKey, objects := DefaultPins(), NO_KEYS, DefaultMgmtKey(), map[];
      session := Session(false, false, false, false, false, None, false);
      generateOverrides, faults, touchBlocked := map[], [], None;
    }

    // --- the touch gate -----------------------------------------------------

    method PassTouchGate(slot: Byte, now: int) returns (passed: bool)
      modifies touch, `touchBlocked
      ensures var (pad, awaiting) := TouchGate(old(State()), slot, now);
              touch.State() == pad && passed == awaiting.None? &&
              touchBlocked == if passed then old(touchBlocked) else awaiting
    {
      var policy := EffectiveTouch(keys, slot);
      if policy != TOUCH_ALWAYS && policy != TOUCH_CACHED { return true; }
      if autoTouch { return true; }
      var answer := touch.TryConsume(slot, policy == TOUCH_CACHED, now + clockSkew);
      if answer.Blocked? {
        touchBlocked := Some(answer.seen);
        return false;
      }
      return true;
    }

    // --- PIN, PUK and factory reset -------------------------------------------

    method HandleVerify(body: Option<Bytes>) returns (response: Bytes)
      modifies `pins, `session
      ensures (pins, session, response) == Verify(old(pins), old(session), body)
    {
      match body
      case None =>
        if session.pinVerified { return SW_OK; } else { return SwRetries(pins.pinRetries); }
      case Some(given) =>
        if |given| != 8 { return SW_BAD_DATA; }
        if pins.pinRetries == 0 { return SW_BLOCKED; }
        if given == pins.pin {
          pins := pins.(pinRetries := DEFAULT_RETRIES);
          session := session.(pinVerified := true);
          session := session.(commandSinceVerify := false);
          return SW_OK;
        }
        pins := pins.(pinRetries := pins.pinRetries - 1);
        if pins.pinRetries == 0 { return SW_BLOCKED; }
        return SwRetries(pins.pinRetries);
    }

    method HandleChangeReference(ofPin: bool, body: Option<Bytes>) returns (response: Bytes)
      modifies `pins
      ensures (pins, response) == ChangeReference(old(pins), ofPin, body)
    {
      if body.None? || |body.value| != 16 { return SW_BAD_DATA; }
      var given, renewed := body.value[..8], body.value[8..];
      var current, retries := if ofPin then pins.pin else pins.puk, if ofPin then pins.pinRetries else pins.pukRetries;
      if retries == 0 { return SW_BLOCKED; }
      if given != current {
        if ofPin { pins := pins.(pinRetries := retries - 1); } else { pins := pins.(pukRetries := retries - 1); }
        return SwRetries(retries - 1);
      }
      if ofPin {
        pins := pins.(pin := renewed, pinRetries := DEFAULT_RETRIES);
      } else {
        pins := pins.(puk := renewed, pukRetries := DEFAULT_RETRIES);
      }
      return SW_OK;
    }

    method HandleResetRetry(body: Option<Bytes>) returns (response: Bytes)
      modifies `pins, `session
      ensures (pins, session, response) == ResetRetry(old(pins), old(session), body)
    {
      if body.None? || |body.value| != 16 { return SW_BAD_DATA; }
      if pins.pukRetries == 0 { return SW_BLOCKED; }
      if body.value[..8] != pins.puk {
        pins := pins.(pukRetries := pins.pukRetries - 1);
        return SwRetries(pins.pukRetries);
      }
      pins := pins.(pin := body.value[8..]);
      pins := pins.(pinRetries := DEFAULT_RETRIES);
      pins := pins.(pukRetries := DEFAULT_RETRIES);
      session := session.(pinVerified := false);
      return SW_OK;
    }

    method HandleFactoryReset() returns (response: Bytes)
      modifies `keys, `objects, `pins, `mgmtKey, `session, touch
      ensures (State(), response) == FactoryReset(old(State()))
    {
      if pins.pinRetries != 0 || pins.pukRetries != 0 { return SW_CONDITIONS; }
      keys := keys.(scalars := map[]);
      keys := keys.(policies := map[], origins := map[]);
      touch.ClearCache();
      objects := map[];
      pins := pins.(pin := DefaultPin(), pinRetries := DEFAULT_RETRIES);
      pins := pins.(puk := DefaultPuk(), pukRetries := DEFAULT_RETRIES);
      mgmtKey := DefaultMgmtKey();
      session := session.(pinVerified := false);
      return SW_OK;
    }

    // --- management key ----------------------------------------------------------

    method HandleMgmtAuth(body: Option<Bytes>) returns (response: Bytes)
      modifies `session
      ensures (session, response) == MgmtAuth(chip, mgmtKey, old(session), body)
    {
      if body.None? { return SW_BAD_DATA; }
      if body.value == [0x7C, 0x02, 0x81, 0x00] {
        var challenge := if session.pendingWitness.Some? then session.pendingWitness.value else ZeroWitness();
        session := session.(pendingWitness := Some(challenge));
        return [0x7C, 0x0A, 0x81, 0x08] + challenge + SW_OK;
      }
      if |body.value| == 12 && body.value[..4] == [0x7C, 0x0A, 0x82, 0x08] {
        var challenge := session.pendingWitness;
        session := session.(pendingWitness := None);
        if challenge.None? { return SW_SECURITY; }
        if chip.tdesDecrypt(mgmtKey, body.value[4..]) == challenge.value {
          session := session.(mgmtAuthenticated := true);
          return SW_OK;
        }
        return SW_SECURITY;
      }
      return SW_BAD_DATA;
    }

    method HandleSetMgmtKey(body: Option<Bytes>) returns (response: Bytes)
      modifies `mgmtKey
      ensures (mgmtKey, response) == SetMgmtKey(old(mgmtKey), session.mgmtAuthenticated, body)
    {
      if !session.mgmtAuthenticated { return SW_SECURITY; }
      if body.None? { return SW_BAD_DATA; }
      if |body.value| != 27 || body.value[0] != 0x03 || body.value[1] != 0x9B || body.value[2] != 0x18 {
        return SW_BAD_DATA;
      }
      mgmtKey := body.value[3..];
      return SW_OK;
    }

    // --- keys -----------------------------------------------------------------------

    method InstallSlotKey(slot: Byte, scalar: Bytes, policy: Policy, origin: KeyOrigin)
      requires slot in SLOTS
      modifies `keys
      ensures keys == Install(old(keys), slot, scalar, policy, origin)
    {
      keys := keys.(scalars := keys.scalars[slot := scalar]);
      keys := keys.(policies := keys.policies[slot := policy]);
      keys := keys.(origins := keys.origins[slot := origin]);
    }

    method HandleGenerate(slot: Byte, body: Option<Bytes>, drawn: Bytes) returns (response: Bytes)
      modifies `keys
      ensures (keys, response) == Generate(chip, old(State()), slot, body, drawn)
    {
      if !session.mgmtAuthenticated { return SW_SECURITY; }
      if body.None? { return SW_BAD_DATA; }
      var request := ParseGenerateRequest(body.value);
      if request.None? { return SW_BAD_DATA; }
      if request.value.alg != 0x11 { return SW_BAD_DATA; }
      if slot != 0x9A && slot != 0x9C && slot != 0x9D { return SW_BAD_SLOT; }
      var policy := ValidatedPolicy(request.value.pin, request.value.touch);
      if policy.None? { return SW_BAD_DATA; }
      var scalar := if slot in generateOverrides then generateOverrides[slot] else drawn;
      if !chip.validScalar(scalar) { return SW_BAD_DATA; }
      InstallSlotKey(slot, scalar, policy.value, Generated);
      return Wrap([0x7F, 0x49], Wrap([0x86], chip.publicPoint(scalar))) + SW_OK;
    }

    method HandleImport(alg: Byte, slot: Byte, body: Option<Bytes>) returns (response: Bytes)
      modifies `keys
      ensures (keys, response) == Import(chip, old(State()), alg, slot, body)
    {
      if !session.mgmtAuthenticated { return SW_SECURITY; }
      if alg != 0x11 { return SW_BAD_DATA; }
      if slot !in SLOTS { return SW_BAD_SLOT; }
      if body.None? { return SW_BAD_DATA; }
      var request := ParseImportRequest(body.value);
      if request.None? { return SW_BAD_DATA; }
      if !chip.validScalar(request.value.scalar) { return SW_BAD_DATA; }
      var policy := ValidatedPolicy(request.value.pin, request.value.touch);
      if policy.None? { return SW_BAD_DATA; }
      InstallSlotKey(slot, request.value.scalar, policy.value, Imported);
      return SW_OK;
    }

    // --- private-key operations ----------------------------------------------------------

    method ReleaseAfterTouch(slot: Byte, now: int, result: Bytes) returns (response: Bytes)
      requires touchBlocked.None?
      modifies `session, `touchBlocked, touch
      ensures Used(session, touch.State(), Reply(response, touchBlocked)) == Release(old(State()), slot, now, result)
    {
      var policy := EffectivePin(keys, slot);
      var passed := PassTouchGate(slot, now);
      if !passed { return SW_TOUCH_TIMEOUT; }
      if policy == PIN_ALWAYS { session := session.(pinVerified := false); }
      return result;
    }

    method SignEcdsaSlot(body: Option<Bytes>, slot: Byte, now: int) returns (response: Bytes)
      requires touchBlocked.None?
      modifies `session, `touchBlocked, touch
      ensures Used(session, touch.State(), Reply(response, touchBlocked)) == Sign(chip, old(State()), slot, body, now)
    {
      var policy := EffectivePin(keys, slot);
      if policy != PIN_NEVER && !session.pinVerified { return SW_SECURITY; }
      if policy == PIN_ALWAYS && session.commandSinceVerify { return SW_SECURITY; }
      if slot !in keys.scalars { return SW_NO_KEY; }
      if body.None? { return SW_BAD_DATA; }
      var challenge := ParseGaSignRequest(body.value);
      if challenge.None? { return SW_BAD_DATA; }
      if !chip.validScalar(keys.scalars[slot]) { return SW_NO_KEY; }
      var der := chip.sign(keys.scalars[slot], challenge.value);
      if der.None? { return SW_BAD_DATA; }
      response := ReleaseAfterTouch(slot, now, Wrap([0x7C], Wrap([0x82], der.value)) + SW_OK);
    }

    method HandleEcdh(body: Option<Bytes>, now: int) returns (response: Bytes)
      requires touchBlocked.None?
      modifies `session, `touchBlocked, touch
      ensures Used(session, touch.State(), Reply(response, touchBlocked)) == Agree(chip, old(State()), body, now)
    {
      var policy := EffectivePin(keys, 0x9D);
      if policy != PIN_NEVER && !session.pinVerified { return SW_SECURITY; }
      if policy == PIN_ALWAYS && session.commandSinceVerify { return SW_SECURITY; }
      if 0x9D !in keys.scalars { return SW_NO_KEY; }
      if body.None? { return SW_BAD_DATA; }
      var point := ParseGaEcdhRequest(body.value);
      if point.None? { return SW_BAD_DATA; }
      if !chip.onCurve(point.value) { return SW_BAD_DATA; }
      var scalar := keys.scalars[0x9D];
      if !chip.validScalar(scalar) { return SW_NO_KEY; }
      response := ReleaseAfterTouch(0x9D, now, [0x7C, 0x22, 0x82, 0x20] + chip.agree(scalar, point.value) + SW_OK);
    }

    // --- objects, selection and faults -----------------------------------------------------

    method HandlePutData(apdu: Bytes) returns (response: Bytes)
      modifies `objects
      ensures (objects, response) == PutData(old(objects), ApduBody(apdu))
    {
      var body := ApduBody(apdu);
      if body.None? { return SW_BAD_DATA; }
      var field := Parse5cTag(body.value);
      if field.None? { return SW_BAD_DATA; }
      var wrapped := Split53(field.value.1);
      if wrapped.None? { return SW_BAD_DATA; }
      objects := objects[field.value.0 := wrapped.value.0];
      return SW_OK;
    }

    method HandleSelect(body: Option<Bytes>) returns (response: Bytes)
      modifies `session
      ensures (session, response) == Select(chip, old(session), body)
    {
      var aid := if body.Some? then body.value else [];
      if PivAidPrefix() <= aid {
        session := session.(selectedPiv := true);
        session := session.(selectedOtp := false);
        return chip.fci + SW_OK;
      }
      if OtpAid() <= aid {
        session := session.(selectedOtp := true);
        session := session.(selectedPiv := false);
        return SW_OK;
      }
      return SW_NOT_FOUND;
    }

    method TakeFault(ins: Byte) returns (sw: Option<nat>)
      modifies `faults
      ensures var i := FirstFault(old(faults), ins);
              if i < |old(faults)| then sw == Some(old(faults)[i].sw) && faults == AfterFault(old(faults), i)
              else sw.None? && faults == old(faults)
    {
      var i := FirstFault(faults, ins);
      if i == |faults| { return None; }
      var fault := faults[i];
      faults := faults[i := fault.(remaining := fault.remaining - 1)];
      if faults[i].remaining == 0 {
        faults := faults[..i] + faults[i + 1..];
      }
      return Some(fault.sw);
    }

    // --- dispatch ------------------------------------------------------------------------------

    method DispatchCommand(apdu: Bytes, now: int, drawn: Bytes) returns (response: Bytes)
      requires touchBlocked.None?
      modifies this, touch
      ensures (State(), Reply(response, touchBlocked)) == C.DispatchCommand(chip, old(State()), apdu, now, drawn)
    {
      if |apdu| < 4 { return [0x6F, 0x00]; }
      var fault := TakeFault(apdu[1]);
      if fault.Some? { return FaultWord(fault.value); }
      response := ExecuteCommand(Route(State(), apdu), apdu, now, drawn);
    }

    method ExecuteCommand(command: Command, apdu: Bytes, now: int, drawn: Bytes) returns (response: Bytes)
      requires touchBlocked.None?
      modifies this, touch
      ensures (State(), Reply(response, touchBlocked)) == Execute(chip, old(State()), command, ApduBody(apdu), now, drawn)
    {
      hide Verify, ChangeReference, ResetRetry, FactoryReset, MgmtAuth, SetMgmtKey, Generate, Import, Attest, Metadata,
           Sign, Agree, GetData, PutData, Select, ApduBody;
      var body := ApduBody(apdu);
      match command
      case SelectApplet => response := HandleSelect(body);
      case ReadObject => response := GetData(chip, objects, body);
      case WriteObject => response := HandlePutData(apdu);
      case ReadVersion => response := chip.firmware + SW_OK;
      case ReadSerial =>
        if chip.serial.Some? { response := chip.serial.value + SW_OK; } else { response := SW_UNSUPPORTED; }
      case ReadOtpSerial => response := chip.otpSerial + SW_OK;
      case VerifyPin => response := HandleVerify(body);
      case ChangePinOrPuk(ofPin) => response := HandleChangeReference(ofPin, body);
      case UnblockPin => response := HandleResetRetry(body);
      case Wipe => response := HandleFactoryReset();
      case AuthenticateAdmin => response := HandleMgmtAuth(body);
      case RotateMgmtKey => response := HandleSetMgmtKey(body);
      case Refuse(sw) => response := sw;
      case _ => response := ExecuteKeyCommand(command, apdu, now, drawn);
    }

    method ExecuteKeyCommand(command: Command, apdu: Bytes, now: int, drawn: Bytes) returns (response: Bytes)
      requires touchBlocked.None?
      requires command.GenerateKey? || command.ImportKey? || command.AttestKey? || command.ReadMetadata? || command.SignWith? || command.KeyAgreement?
      modifies this, touch
      ensures (State(), Reply(response, touchBlocked)) == Execute(chip, old(State()), command, ApduBody(apdu), now, drawn)
    {
      hide FactoryReset, Generate, Import, Attest, Metadata, Sign, Agree, ApduBody;
      var body := ApduBody(apdu);
      match command
      case GenerateKey(slot) => response := HandleGenerate(slot, body, drawn);
      case ImportKey(alg, slot) => response := HandleImport(alg, slot, body);
      case AttestKey(slot) => response := Attest(chip, keys, slot);
      case ReadMetadata(slot) => response := Metadata(chip, keys, slot);
      case SignWith(slot) => response := SignEcdsaSlot(body, slot, now);
      case KeyAgreement => response := HandleEcdh(body, now);
    }

    method Dispatch(apdu: Bytes, now: int, drawn: Bytes) returns (response: Bytes)
      modifies this, touch
      ensures (State(), Reply(response, touchBlocked)) == C.Dispatch(chip, old(State()), apdu, now, drawn)
    {
      touchBlocked := None;
      if requireSelect && !session.selectedPiv && !session.selectedOtp && |apdu| > 1 && apdu[1] != INS_SELECT {
        return SW_UNSUPPORTED;
      }
      response := DispatchCommand(apdu, now, drawn);
      if !(|apdu| > 1 && apdu[1] == INS_VERIFY) && touchBlocked.None? {
        session := session.(commandSinceVerify := true);
      }
    }

    /** `transmit_or_await_touch`: the answer, and what to wait for if the card needs a touch. */
    method TransmitOrAwaitTouch(apdu: Bytes, now: int, drawn: Bytes) returns (reply: Reply)
      modifies this, touch
      ensures (State(), reply) == Step(chip, old(State()), Transmit(apdu, now, drawn))
      ensures touchBlocked.None?
    {
      var response := Dispatch(apdu, now, drawn);
      reply := Reply(response, touchBlocked);
      touchBlocked := None;
    }

    // --- the reader's side of the card -----------------------------------------------------------

    method ResetSessionState()
      modifies `session
      ensures session == ClearedSession(old(session))
    {
      session := session.(selectedPiv := false);
      session := session.(selectedOtp := false);
      session := session.(pinVerified := false);
      session := session.(pendingWitness := None);
      session := session.(mgmtAuthenticated := false);
    }

    method SetPresent(present: bool)
      modifies this, touch
      ensures State() == Insert(old(State()), present)
    {
      if !present && inserted {
        session := session.(powered := false);
        ResetSessionState();
        touch.ClearCache();
      }
      if present != inserted {
        eventCounter := (eventCounter + 1) % TWO_32;
      }
      inserted := present;
    }

    method Connect()
      modifies `session
      ensures State() == Step(chip, old(State()), PowerUp).0
    {
      session := session.(powered := true);
      session := session.(selectedPiv := false);
      session := session.(selectedOtp := false);
    }

    method Disconnect()
      modifies `session
      ensures State() == PowerOff(old(State()))
    {
      session := session.(powered := false);
      ResetSessionState();
    }

    method EndTransaction(disposition: nat)
      modifies `session
      ensures State() == Step(chip, old(State()), CardOp.EndTransaction(disposition)).0
    {
      if disposition == DISPOSITION_RESET || disposition == DISPOSITION_UNPOWER {
        ResetSessionState();
      }
    }

    method InjectFault(fault: Fault) returns (accepted: bool)
      modifies `faults
      ensures State() == Step(chip, old(State()), CardOp.InjectFault(fault)).0 && accepted == (fault.remaining > 0)
    {
      if fault.remaining == 0 { return false; }
      faults := faults + [fault];
      return true;
    }

    method SeedSlotKey(slot: Byte, scalar: Bytes)
      requires slot in SLOTS
      modifies `keys
      ensures keys == Seed(old(keys), slot, scalar)
    {
      keys := keys.(scalars := keys.scalars[slot := scalar]);
      keys := keys.(policies := keys.policies - {slot});
      keys := keys.(origins := keys.origins - {slot});
    }

    /** One operation of whoever else uses the card, applied to the object. */
    method Perform(op: CardOp)
      modifies this, touch
      ensures State() == Step(chip, old(State()), op).0
    {
      match op
      case Transmit(apdu, now, drawn) => var _ := TransmitOrAwaitTouch(apdu, now, drawn);
      case GrantTouch => var _ := touch.Grant();
      case SetPresent(present) => SetPresent(present);
      case PowerUp => Connect();
      case PowerDown => Disconnect();
      case EndTransaction(disposition) => EndTransaction(disposition);
      case InjectFault(fault) => var _ := InjectFault(fault);
      case ClearFaults => faults := [];
      case SeedKey(slot, scalar) => if slot in SLOTS { SeedSlotKey(slot, scalar); }
      case AdvanceClock(millis) => clockSkew := clockSkew + millis;
    }

    /** Whatever the other clients and the control socket do while this card is unlocked. */
    method PerformAll(ops: seq<CardOp>)
      modifies this, touch
      ensures State() == Run(chip, old(State()), ops)
    {
      for i := 0 to |ops|
        invariant State() == Run(chip, old(State()), ops[..i])
      {
        Perform(ops[i]);
        assert ops[..i + 1][..i] == ops[..i];
      }
      assert ops[..|ops|] == ops;
    }
  }
}
