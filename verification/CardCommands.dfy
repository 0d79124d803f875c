/** Which bytes are which command, and what each handler of a running command leaves behind (crates/fibby/src/virtual_card.rs). */
module CardCommands {
  import opened Base
  import opened ApduParse
  import opened Card
  import opened CardHistory

  // --- the command table -----------------------------------------------------------

  lemma PinHeaders(s: Card, apdu: Bytes)
    requires |apdu| >= 4
    ensures Route(s, apdu) == VerifyPin <==> apdu[..4] == [0x00, 0x20, 0x00, 0x80]
    ensures Route(s, apdu) == ChangePinOrPuk(true) <==> apdu[..4] == [0x00, 0x24, 0x00, 0x80]
    ensures Route(s, apdu) == ChangePinOrPuk(false) <==> apdu[..4] == [0x00, 0x24, 0x00, 0x81]
    ensures Route(s, apdu) == UnblockPin <==> apdu[..4] == [0x00, 0x2C, 0x00, 0x80]
    ensures Route(s, apdu) == Wipe <==> apdu[..4] == [0x00, 0xFB, 0x00, 0x00]
  {
    hide ApduBody, GaSignRequest;
    assert apdu[..4] == [apdu[0], apdu[1], apdu[2], apdu[3]];
  }

  lemma AdminHeaders(s: Card, apdu: Bytes, alg: Byte, slot: Byte)
    requires |apdu| >= 4
    ensures Route(s, apdu) == AuthenticateAdmin <==> apdu[..4] == [0x00, 0x87, 0x03, 0x9B]
    ensures Route(s, apdu) == RotateMgmtKey <==> apdu[..4] == [0x00, 0xFF, 0xFF, 0xFF]
    ensures Route(s, apdu) == GenerateKey(slot) <==> apdu[..4] == [0x00, 0x47, 0x00, slot]
    ensures Route(s, apdu) == ImportKey(alg, slot) <==> apdu[..4] == [0x00, 0xFE, alg, slot]
    ensures Route(s, apdu) == AttestKey(slot) <==> apdu[..4] == [0x00, 0xF9, slot, 0x00]
    ensures Route(s, apdu) == ReadMetadata(slot) <==> apdu[..4] == [0x00, 0xF7, 0x00, slot]
  {
    hide ApduBody, GaSignRequest;
    assert apdu[..4] == [apdu[0], apdu[1], apdu[2], apdu[3]];
  }

  lemma DataHeaders(s: Card, apdu: Bytes)
    requires |apdu| >= 4
    ensures Route(s, apdu) == SelectApplet <==> apdu[..4] == [0x00, 0xA4, 0x04, 0x00]
    ensures Route(s, apdu) == ReadObject <==> apdu[..4] == [0x00, 0xCB, 0x3F, 0xFF]
    ensures Route(s, apdu) == WriteObject <==> apdu[..4] == [0x00, 0xDB, 0x3F, 0xFF]
    ensures Route(s, apdu) == ReadVersion <==> apdu[..4] == [0x00, 0xFD, 0x00, 0x00]
    ensures Route(s, apdu) == ReadSerial <==> apdu[..4] == [0x00, 0xF8, 0x00, 0x00]
    ensures Route(s, apdu) == ReadOtpSerial <==> apdu[..4] == [0x00, 0x01, 0x10, 0x00] && s.session.selectedOtp
  {
    hide ApduBody, GaSignRequest;
    assert apdu[..4] == [apdu[0], apdu[1], apdu[2], apdu[3]];
  }

  /** GENERAL AUTHENTICATE with slot 9D is a signature if its template holds a digest, a key agreement otherwise. */
  lemma KeyHeaders(s: Card, apdu: Bytes, slot: Byte)
    requires |apdu| >= 4
    ensures var digest := if ApduBody(apdu).Some? then GaSignRequest(ApduBody(apdu).value) else None;
            && (Route(s, apdu) == SignWith(slot) <==>
                  apdu[..4] == [0x00, 0x87, 0x11, slot] && (slot in {0x9A, 0x9C, 0x9E} || (slot == 0x9D && digest.Some?)))
            && (Route(s, apdu) == KeyAgreement <==> apdu[..4] == [0x00, 0x87, 0x11, 0x9D] && digest.None?)
  {
    hide ApduBody, GaSignRequest;
    assert apdu[..4] == [apdu[0], apdu[1], apdu[2], apdu[3]];
  }

  // --- commands that run ----------------------------------------------------------------

  /** A card that processes what it is sent: an applet is selected or none is asked for, and no fault is queued. */
  predicate Plain(k: Card) { (k.requireSelect ==> k.session.selectedPiv || k.session.selectedOtp) && k.faults == [] }

  /** What a short APDU runs as on such a card. */
  lemma PlainCommand(k: Card, h: Header, data: Bytes, now: int, drawn: Bytes)
    requires Plain(k) && 1 <= |data| <= 255
    ensures var apdu := ShortApdu(h, data, []);
            && |apdu| >= 4 && apdu[..4] == HeaderBytes(h) && ApduBody(apdu) == Some(data)
            && Running(k, Transmit(apdu, now, drawn)) == Some(Route(k, apdu))
            && (IsVerify(apdu) <==> h.ins == INS_VERIFY)
  {
    hide ApduBody, Route;
    ApduCarriesItsData(h, data, []);
    var apdu := ShortApdu(h, data, []);
    assert apdu[1] == apdu[..4][1];
    assert FirstFault([], apdu[1]) == 0;
  }

  /** The PINs, the session's verification and the answer of each command about them. */
  lemma ExecutePins(chip: Chip, s: Card, command: Command, body: Option<Bytes>, now: int, drawn: Bytes)
    requires PinCommand(command)
    ensures var s' := Execute(chip, s, command, body, now, drawn).0;
            var reply := Execute(chip, s, command, body, now, drawn).1;
            && reply.awaiting.None?
            && (command.VerifyPin? ==>
                  var v := Verify(s.pins, s.session, body); s'.pins == v.0 && s'.session == v.1 && reply.bytes == v.2)
            && (command.ChangePinOrPuk? ==>
                  var v := ChangeReference(s.pins, command.ofPin, body);
                  s'.pins == v.0 && s'.session == s.session && reply.bytes == v.1)
            && (command.UnblockPin? ==>
                  var v := ResetRetry(s.pins, s.session, body); s'.pins == v.0 && s'.session == v.1 && reply.bytes == v.2)
            && (command.Wipe? ==> s' == FactoryReset(s).0 && reply.bytes == FactoryReset(s).1)
  {
    hide Verify, ChangeReference, ResetRetry, FactoryReset;
  }

  /** The version and serial queries answer what the card was built with, and change nothing but the since-verify mark. */
  lemma QueriesAnswer(chip: Chip, s: Card, op: CardOp)
    requires Running(s, op).Some?
    ensures var (s', reply) := Step(chip, s, op);
            && (Running(s, op) == Some(ReadVersion) ==> reply == Say(chip.firmware + [0x90, 0x00]))
            && (Running(s, op) == Some(ReadSerial) ==>
                  reply == Say(if chip.serial.Some? then chip.serial.value + [0x90, 0x00] else [0x6D, 0x00]))
            && (Running(s, op) == Some(ReadOtpSerial) ==> reply == Say(chip.otpSerial + [0x90, 0x00]))
            && (Running(s, op).value in {ReadVersion, ReadSerial, ReadOtpSerial} ==>
                  s' == s.(session := s.session.(commandSinceVerify := s'.session.commandSinceVerify)))
  {
    hide Route, ApduBody, GetData, Attest, Metadata, Sign, Agree, Generate, Import, FactoryReset, Verify, ChangeReference,
         ResetRetry, MgmtAuth, SetMgmtKey, PutData, Select;
    RunningDispatches(chip, s, op);
  }
}
