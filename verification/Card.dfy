/**
 * What the virtual PIV card does with each command (crates/fibby/src/virtual_card.rs),
 * as a function of its whole state.
 */
module Card {
  import opened Base
  import opened ApduParse
  import Touch

  // --- constants ------------------------------------------------------------

  function DefaultPin(): Bytes { [0x31, 0x32, 0x33, 0x34, 0x35, 0x36, 0xFF, 0xFF] }
  function DefaultPuk(): Bytes { [0x31, 0x32, 0x33, 0x34, 0x35, 0x36, 0x37, 0x38] }
  const DEFAULT_RETRIES: Byte := 3
  function DefaultMgmtKey(): Bytes { [1, 2, 3, 4, 5, 6, 7, 8, 1, 2, 3, 4, 5, 6, 7, 8, 1, 2, 3, 4, 5, 6, 7, 8] }
  function AttestationCertTag(): Bytes { [0x5F, 0xFF, 0x01] }
  function PivAidPrefix(): Bytes { [0xA0, 0x00, 0x00, 0x03, 0x08] }
  function OtpAid(): Bytes { [0xA0, 0x00, 0x00, 0x05, 0x27, 0x20, 0x01, 0x01] }

  const SW_OK: Bytes := [0x90, 0x00]
  const SW_TOUCH_TIMEOUT: Bytes := [0x69, 0x82]
  const SW_SECURITY: Bytes := [0x69, 0x82]
  const SW_BLOCKED: Bytes := [0x69, 0x83]
  const SW_CONDITIONS: Bytes := [0x69, 0x85]
  const SW_BAD_DATA: Bytes := [0x6A, 0x80]
  const SW_NOT_FOUND: Bytes := [0x6A, 0x82]
  const SW_BAD_SLOT: Bytes := [0x6A, 0x86]
  const SW_NO_KEY: Bytes := [0x6A, 0x88]
  const SW_UNSUPPORTED: Bytes := [0x6D, 0x00]

  /** `63 Cx`: `0xC0 | left`. */
  function SwRetries(left: Byte): Bytes { [0x63, 0xC0 + left % 64] }

  const INS_VERIFY: Byte := 0x20
  const INS_SELECT: Byte := 0xA4
  const SLOTS: set<Byte> := {0x9A, 0x9C, 0x9D, 0x9E}

  const PIN_NEVER: Byte := 1
  const PIN_ONCE: Byte := 2
  const PIN_ALWAYS: Byte := 3
  const TOUCH_NEVER: Byte := 1
  const TOUCH_ALWAYS: Byte := 2
  const TOUCH_CACHED: Byte := 3

  const DISPOSITION_LEAVE: nat := 0
  const DISPOSITION_RESET: nat := 1
  const DISPOSITION_UNPOWER: nat := 2

  // --- state ------------------------------------------------------------------

  /** `[pin, touch]` as configured; 0 is `default`. */
  datatype Policy = Policy(pin: Byte, touch: Byte)

  datatype KeyOrigin = Generated | Imported

  /** `remaining` commands with instruction `ins` (any, if none) answer `sw`. */
  datatype Fault = Fault(ins: Option<Byte>, sw: nat, remaining: nat)

  datatype Pins = Pins(pin: Bytes, pinRetries: Byte, puk: Bytes, pukRetries: Byte)

  datatype Session = Session(
    powered: bool, selectedPiv: bool, selectedOtp: bool,
    pinVerified: bool, commandSinceVerify: bool,
    pendingWitness: Option<Bytes>, mgmtAuthenticated: bool)

  datatype Keys = Keys(scalars: map<Byte, Bytes>, policies: map<Byte, Policy>, origins: map<Byte, KeyOrigin>)

  function DefaultPins(): Pins { Pins(DefaultPin(), DEFAULT_RETRIES, DefaultPuk(), DEFAULT_RETRIES) }
  const NO_KEYS: Keys := Keys(map[], map[], map[])

  datatype Card = Card(
    inserted: bool, eventCounter: nat, requireSelect: bool, autoTouch: bool, clockSkew: int,
    pins: Pins, session: Session, keys: Keys,
    generateOverrides: map<Byte, Bytes>, mgmtKey: Bytes,
    objects: map<Bytes, Bytes>, faults: seq<Fault>, pad: Touch.Pad)

  /** The model's constants and the cryptography the card calls out to. */
  datatype Chip = Chip(
    fci: Bytes, firmware: Bytes, serial: Option<Bytes>, otpSerial: Bytes,
    validScalar: Bytes -> bool,
    publicPoint: Bytes -> Bytes,
    sign: (Bytes, Bytes) -> Option<Bytes>,
    onCurve: Bytes -> bool,
    agree: (Bytes, Bytes) -> Bytes,
    tdesDecrypt: (Bytes, Bytes) -> Bytes,
    attest: (Byte, Bytes, Policy) -> Bytes,
    attestationCert: Bytes)

  /** A response, and the pad generation to wait on when the operation needs a touch. */
  datatype Reply = Reply(bytes: Bytes, awaiting: Option<nat>)

  function Say(b: Bytes): Reply { Reply(b, None) }

  // --- policies and the touch gate -------------------------------------------------

  function StoredPolicy(keys: Keys, slot: Byte): Policy {
    if slot in keys.policies then keys.policies[slot] else Policy(0, 0)
  }

  function EffectivePin(keys: Keys, slot: Byte): Byte {
    var pin := StoredPolicy(keys, slot).pin;
    if pin != 0 then pin
    else if slot == 0x9C then PIN_ALWAYS
    else if slot == 0x9E then PIN_NEVER
    else PIN_ONCE
  }

  function EffectiveTouch(keys: Keys, slot: Byte): Byte {
    var touch := StoredPolicy(keys, slot).touch;
    if touch == 0 then TOUCH_NEVER else touch
  }

  /** The gate's new pad, and the generation to wait on if it stayed shut. */
  function TouchGate(s: Card, slot: Byte, now: int): (Touch.Pad, Option<nat>) {
    var touch := EffectiveTouch(s.keys, slot);
    if (touch != TOUCH_ALWAYS && touch != TOUCH_CACHED) || s.autoTouch then (s.pad, None)
    else
      match Touch.Consume(s.pad, slot, touch == TOUCH_CACHED, now + s.clockSkew)
      case (pad, Pass(_)) => (pad, None)
      case (_, Blocked(seen)) => (s.pad, Some(seen))
  }

  /** The PIN rule of a private-key operation: verified, and for `always` nothing in between. */
  predicate PinSatisfied(keys: Keys, session: Session, slot: Byte) {
    var pin := EffectivePin(keys, slot);
    && (pin != PIN_NEVER ==> session.pinVerified)
    && (pin == PIN_ALWAYS ==> !session.commandSinceVerify)
  }

  /** `always` consumes the verification. */
  function SpendPin(keys: Keys, session: Session, slot: Byte): Session {
    if EffectivePin(keys, slot) == PIN_ALWAYS then session.(pinVerified := false) else session
  }

  // --- response encodings -------------------------------------------------------------

  function PushBerLen(len: nat): Bytes {
    if len < 0x80 then [len]
    else if len < 0x100 then [0x81, len]
    else [0x82, len / 256 % 256, len % 256]
  }

  function Wrap(tag: Bytes, content: Bytes): Bytes { tag + PushBerLen(|content|) + content }

  // --- PIN, PUK and factory reset: each handler's new parts, and its response ------------------

  function Verify(pins: Pins, session: Session, body: Option<Bytes>): (Pins, Session, Bytes) {
    match body
    case None => (pins, session, if session.pinVerified then SW_OK else SwRetries(pins.pinRetries))
    case Some(given) =>
      if |given| != 8 then (pins, session, SW_BAD_DATA)
      else if pins.pinRetries == 0 then (pins, session, SW_BLOCKED)
      else if given == pins.pin then
        (pins.(pinRetries := DEFAULT_RETRIES), session.(pinVerified := true, commandSinceVerify := false), SW_OK)
      else
        var left := pins.pinRetries - 1;
        (pins.(pinRetries := left), session, if left == 0 then SW_BLOCKED else SwRetries(left))
  }

  function ChangeReference(pins: Pins, ofPin: bool, body: Option<Bytes>): (Pins, Bytes) {
    if body.None? || |body.value| != 16 then (pins, SW_BAD_DATA)
    else
      var given, renewed := body.value[..8], body.value[8..];
      var stored, retries := if ofPin then pins.pin else pins.puk, if ofPin then pins.pinRetries else pins.pukRetries;
      if retries == 0 then (pins, SW_BLOCKED)
      else if given != stored then
        (if ofPin then pins.(pinRetries := retries - 1) else pins.(pukRetries := retries - 1), SwRetries(retries - 1))
      else
        (if ofPin then pins.(pin := renewed, pinRetries := DEFAULT_RETRIES)
         else pins.(puk := renewed, pukRetries := DEFAULT_RETRIES),
         SW_OK)
  }

  function ResetRetry(pins: Pins, session: Session, body: Option<Bytes>): (Pins, Session, Bytes) {
    if body.None? || |body.value| != 16 then (pins, session, SW_BAD_DATA)
    else if pins.pukRetries == 0 then (pins, session, SW_BLOCKED)
    else if body.value[..8] != pins.puk then
      (pins.(pukRetries := pins.pukRetries - 1), session, SwRetries(pins.pukRetries - 1))
    else
      (pins.(pin := body.value[8..], pinRetries := DEFAULT_RETRIES, pukRetries := DEFAULT_RETRIES),
       session.(pinVerified := false), SW_OK)
  }

  predicate BothBlocked(pins: Pins) { pins.pinRetries == 0 && pins.pukRetries == 0 }

  /** Only with both counters blocked. Admin authentication is left as it is, as the code leaves it. */
  function FactoryReset(s: Card): (Card, Bytes) {
    if !BothBlocked(s.pins) then (s, SW_CONDITIONS)
    else
      (s.(keys := NO_KEYS, objects := map[], pad := Touch.Apply(s.pad, Touch.Clear),
          pins := DefaultPins(), mgmtKey := DefaultMgmtKey(), session := s.session.(pinVerified := false)),
       SW_OK)
  }

  // --- management key -------------------------------------------------------------------------

  function ZeroWitness(): Bytes { [0, 0, 0, 0, 0, 0, 0, 0] }

  function MgmtAuth(chip: Chip, mgmtKey: Bytes, session: Session, body: Option<Bytes>): (Session, Bytes) {
    var pending := session.pendingWitness;
    if body.None? then (session, SW_BAD_DATA)
    else if body.value == [0x7C, 0x02, 0x81, 0x00] then
      var challenge := if pending.Some? then pending.value else ZeroWitness();
      (session.(pendingWitness := Some(challenge)), [0x7C, 0x0A, 0x81, 0x08] + challenge + SW_OK)
    else if |body.value| == 12 && body.value[..4] == [0x7C, 0x0A, 0x82, 0x08] then
      var spent := session.(pendingWitness := None);
      if pending.Some? && chip.tdesDecrypt(mgmtKey, body.value[4..]) == pending.value
      then (spent.(mgmtAuthenticated := true), SW_OK)
      else (spent, SW_SECURITY)
    else (session, SW_BAD_DATA)
  }

  function SetMgmtKey(mgmtKey: Bytes, authenticated: bool, body: Option<Bytes>): (Bytes, Bytes) {
    if !authenticated then (mgmtKey, SW_SECURITY)
    else if body.None? || |body.value| != 27 || body.value[..3] != [0x03, 0x9B, 0x18] then (mgmtKey, SW_BAD_DATA)
    else (body.value[3..], SW_OK)
  }

  // --- key installation and provenance --------------------------------------------------------------

  function Install(keys: Keys, slot: Byte, scalar: Bytes, policy: Policy, origin: KeyOrigin): Keys {
    Keys(keys.scalars[slot := scalar], keys.policies[slot := policy], keys.origins[slot := origin])
  }

  /** An absent tag is `default`; a byte beyond the four defined values is refused. */
  function ValidatedPolicy(pin: Option<Byte>, touch: Option<Byte>): Option<Policy> {
    var policy := Policy(if pin.Some? then pin.value else 0, if touch.Some? then touch.value else 0);
    if policy.pin <= PIN_ALWAYS && policy.touch <= TOUCH_CACHED then Some(policy) else None
  }

  /** `drawn` is the random scalar key generation drew. */
  function Generate(chip: Chip, s: Card, slot: Byte, body: Option<Bytes>, drawn: Bytes): (Keys, Bytes) {
    if !s.session.mgmtAuthenticated then (s.keys, SW_SECURITY)
    else if body.None? then (s.keys, SW_BAD_DATA)
    else match GenerateFields(body.value)
      case None => (s.keys, SW_BAD_DATA)
      case Some(request) =>
        var policy := ValidatedPolicy(request.pin, request.touch);
        var scalar := if slot in s.generateOverrides then s.generateOverrides[slot] else drawn;
        if request.alg != 0x11 then (s.keys, SW_BAD_DATA)
        else if slot !in {0x9A, 0x9C, 0x9D} then (s.keys, SW_BAD_SLOT)
        else if policy.None? || !chip.validScalar(scalar) then (s.keys, SW_BAD_DATA)
        else
          (Install(s.keys, slot, scalar, policy.value, Generated),
           Wrap([0x7F, 0x49], Wrap([0x86], chip.publicPoint(scalar))) + SW_OK)
  }

  function Import(chip: Chip, s: Card, alg: Byte, slot: Byte, body: Option<Bytes>): (Keys, Bytes) {
    if !s.session.mgmtAuthenticated then (s.keys, SW_SECURITY)
    else if alg != 0x11 then (s.keys, SW_BAD_DATA)
    else if slot !in SLOTS then (s.keys, SW_BAD_SLOT)
    else
      var request := if body.Some? then ImportFields(body.value) else None;
      if request.None? || !chip.validScalar(request.value.scalar) then (s.keys, SW_BAD_DATA)
      else match ValidatedPolicy(request.value.pin, request.value.touch)
        case None => (s.keys, SW_BAD_DATA)
        case Some(policy) => (Install(s.keys, slot, request.value.scalar, policy, Imported), SW_OK)
  }

  /** The public point of the key in `slot`, if there is a usable one. */
  function SlotPoint(chip: Chip, keys: Keys, slot: Byte): Option<Bytes> {
    if slot in keys.scalars && chip.validScalar(keys.scalars[slot]) then Some(chip.publicPoint(keys.scalars[slot])) else None
  }

  function Attest(chip: Chip, keys: Keys, slot: Byte): Bytes {
    if slot in keys.origins && keys.origins[slot] == Generated && SlotPoint(chip, keys, slot).Some?
    then chip.attest(slot, SlotPoint(chip, keys, slot).value, StoredPolicy(keys, slot)) + SW_OK
    else SW_BAD_DATA
  }

  function Metadata(chip: Chip, keys: Keys, slot: Byte): Bytes {
    match SlotPoint(chip, keys, slot)
    case None => SW_NO_KEY
    case Some(point) =>
      var policy := StoredPolicy(keys, slot);
      var origin: Byte := if slot in keys.origins && keys.origins[slot] == Generated then 1 else 2;
      [0x01, 0x01, 0x11, 0x02, 0x02, policy.pin, policy.touch, 0x03, 0x01, origin, 0x04]
      + PushBerLen(2 + |point|) + [0x86] + PushBerLen(|point|) + point + SW_OK
  }

  // --- private-key operations ---------------------------------------------------------------------

  /** The new session and pad of a private-key operation, and its reply. */
  datatype Used = Used(session: Session, pad: Touch.Pad, reply: Reply)

  function Refused(s: Card, sw: Bytes): Used { Used(s.session, s.pad, Say(sw)) }

  /** Hand out `result` once the touch gate opens; until then nothing changes. */
  function Release(s: Card, slot: Byte, now: int, result: Bytes): Used {
    match TouchGate(s, slot, now)
    case (_, Some(seen)) => Used(s.session, s.pad, Reply(SW_TOUCH_TIMEOUT, Some(seen)))
    case (pad, None) => Used(SpendPin(s.keys, s.session, slot), pad, Say(result))
  }

  function Sign(chip: Chip, s: Card, slot: Byte, body: Option<Bytes>, now: int): Used {
    if !PinSatisfied(s.keys, s.session, slot) then Refused(s, SW_SECURITY)
    else if slot !in s.keys.scalars then Refused(s, SW_NO_KEY)
    else
      var challenge := if body.Some? then GaSignRequest(body.value) else None;
      if challenge.None? then Refused(s, SW_BAD_DATA)
      else if !chip.validScalar(s.keys.scalars[slot]) then Refused(s, SW_NO_KEY)
      else match chip.sign(s.keys.scalars[slot], challenge.value)
        case None => Refused(s, SW_BAD_DATA)
        case Some(der) => Release(s, slot, now, Wrap([0x7C], Wrap([0x82], der)) + SW_OK)
  }

  function Agree(chip: Chip, s: Card, body: Option<Bytes>, now: int): Used {
    if !PinSatisfied(s.keys, s.session, 0x9D) then Refused(s, SW_SECURITY)
    else if 0x9D !in s.keys.scalars then Refused(s, SW_NO_KEY)
    else
      var point := if body.Some? then GaEcdhRequest(body.value) else None;
      if point.None? || !chip.onCurve(point.value) then Refused(s, SW_BAD_DATA)
      else if !chip.validScalar(s.keys.scalars[0x9D]) then Refused(s, SW_NO_KEY)
      else
        Release(s, 0x9D, now, [0x7C, 0x22, 0x82, 0x20] + chip.agree(s.keys.scalars[0x9D], point.value) + SW_OK)
  }

  // --- object store ------------------------------------------------------------------------------------

  type Objects = map<Bytes, Bytes>

  function GetData(chip: Chip, objects: Objects, body: Option<Bytes>): Bytes {
    var field := if body.Some? then Parse5cTag(body.value) else None;
    if field.None? then SW_BAD_DATA
    else
      var tag := field.value.0;
      if tag in objects then objects[tag] + SW_OK
      else if tag == AttestationCertTag() then chip.attestationCert + SW_OK
      else SW_NOT_FOUND
  }

  /** The object a PUT DATA body stores, and its tag. */
  function PutRequest(body: Option<Bytes>): Option<(Bytes, Bytes)> {
    if body.None? then None
    else match Parse5cTag(body.value)
      case None => None
      case Some((tag, rest)) =>
        match Split53(rest)
        case None => None
        case Some((object53, _)) => Some((tag, object53))
  }

  function PutData(objects: Objects, body: Option<Bytes>): (Objects, Bytes) {
    match PutRequest(body)
    case None => (objects, SW_BAD_DATA)
    case Some((tag, object53)) => (objects[tag := object53], SW_OK)
  }

  function Select(chip: Chip, session: Session, body: Option<Bytes>): (Session, Bytes) {
    var aid := if body.Some? then body.value else [];
    if PivAidPrefix() <= aid then (session.(selectedPiv := true, selectedOtp := false), chip.fci + SW_OK)
    else if OtpAid() <= aid then (session.(selectedOtp := true, selectedPiv := false), SW_OK)
    else (session, SW_NOT_FOUND)
  }

  // --- dispatch -------------------------------------------------------------------------------------------

  datatype Command =
    | SelectApplet | ReadObject | WriteObject
    | GenerateKey(slot: Byte) | ImportKey(alg: Byte, slot: Byte) | AttestKey(slot: Byte) | ReadMetadata(slot: Byte)
    | ReadVersion | ReadSerial | ReadOtpSerial
    | VerifyPin | ChangePinOrPuk(ofPin: bool) | UnblockPin | Wipe
    | SignWith(slot: Byte) | KeyAgreement | AuthenticateAdmin | RotateMgmtKey
    | Refuse(sw: Bytes)

  /** Which command a well-framed APDU is. */
  function Route(s: Card, apdu: Bytes): Command
    requires |apdu| >= 4
  {
    var ins, p1, p2 := apdu[1], apdu[2], apdu[3];
    var body := ApduBody(apdu);
    if apdu[0] != 0 then Refuse(SW_UNSUPPORTED)
    else if ins == INS_SELECT && p1 == 0x04 && p2 == 0x00 then SelectApplet
    else if ins == 0xCB && p1 == 0x3F && p2 == 0xFF then ReadObject
    else if ins == 0xDB && p1 == 0x3F && p2 == 0xFF then WriteObject
    else if ins == 0x47 && p1 == 0x00 then GenerateKey(p2)
    else if ins == 0xFD && p1 == 0x00 && p2 == 0x00 then ReadVersion
    else if ins == 0xF8 && p1 == 0x00 && p2 == 0x00 then ReadSerial
    else if s.session.selectedOtp && ins == 0x01 && p1 == 0x10 && p2 == 0x00 then ReadOtpSerial
    else if ins == INS_VERIFY then (if p1 == 0x00 && p2 == 0x80 then VerifyPin else Refuse(SW_BAD_DATA))
    else if ins == 0x24 then (if p1 == 0x00 && p2 in {0x80, 0x81} then ChangePinOrPuk(p2 == 0x80) else Refuse(SW_BAD_DATA))
    else if ins == 0x2C then (if p1 == 0x00 && p2 == 0x80 then UnblockPin else Refuse(SW_BAD_DATA))
    else if ins == 0xFB && p1 == 0x00 && p2 == 0x00 then Wipe
    else if ins == 0x87 && p1 == 0x11 && p2 == 0x9D then
      (if body.Some? && GaSignRequest(body.value).Some? then SignWith(p2) else KeyAgreement)
    else if ins == 0x87 && p1 == 0x11 && p2 in {0x9A, 0x9C, 0x9E} then SignWith(p2)
    else if ins == 0x87 && p1 == 0x03 && p2 == 0x9B then AuthenticateAdmin
    else if ins == 0xFF && p1 == 0xFF && p2 == 0xFF then RotateMgmtKey
    else if ins == 0xFE then ImportKey(p1, p2)
    else if ins == 0xF9 && p2 == 0x00 then AttestKey(p1)
    else if ins == 0xF7 && p1 == 0x00 then ReadMetadata(p2)
    else Refuse(SW_UNSUPPORTED)
  }

  function Execute(chip: Chip, s: Card, command: Command, body: Option<Bytes>, now: int, drawn: Bytes): (Card, Reply) {
    match command
    case SelectApplet => var (session, r) := Select(chip, s.session, body); (s.(session := session), Say(r))
    case ReadObject => (s, Say(GetData(chip, s.objects, body)))
    case WriteObject => var (objects, r) := PutData(s.objects, body); (s.(objects := objects), Say(r))
    case GenerateKey(slot) => var (keys, r) := Generate(chip, s, slot, body, drawn); (s.(keys := keys), Say(r))
    case ImportKey(alg, slot) => var (keys, r) := Import(chip, s, alg, slot, body); (s.(keys := keys), Say(r))
    case AttestKey(slot) => (s, Say(Attest(chip, s.keys, slot)))
    case ReadMetadata(slot) => (s, Say(Metadata(chip, s.keys, slot)))
    case ReadVersion => (s, Say(chip.firmware + SW_OK))
    case ReadSerial => (s, Say(if chip.serial.Some? then chip.serial.value + SW_OK else SW_UNSUPPORTED))
    case ReadOtpSerial => (s, Say(chip.otpSerial + SW_OK))
    case VerifyPin =>
      var (pins, session, r) := Verify(s.pins, s.session, body); (s.(pins := pins, session := session), Say(r))
    case ChangePinOrPuk(ofPin) => var (pins, r) := ChangeReference(s.pins, ofPin, body); (s.(pins := pins), Say(r))
    case UnblockPin =>
      var (pins, session, r) := ResetRetry(s.pins, s.session, body); (s.(pins := pins, session := session), Say(r))
    case Wipe => var (s', r) := FactoryReset(s); (s', Say(r))
    case SignWith(slot) => Apply(s, Sign(chip, s, slot, body, now))
    case KeyAgreement => Apply(s, Agree(chip, s, body, now))
    case AuthenticateAdmin => var (session, r) := MgmtAuth(chip, s.mgmtKey, s.session, body); (s.(session := session), Say(r))
    case RotateMgmtKey =>
      var (key, r) := SetMgmtKey(s.mgmtKey, s.session.mgmtAuthenticated, body); (s.(mgmtKey := key), Say(r))
    case Refuse(sw) => (s, Say(sw))
  }

  function Apply(s: Card, used: Used): (Card, Reply) { (s.(session := used.session, pad := used.pad), used.reply) }

  // --- injected faults ---------------------------------------------------------------------------------------

  predicate Matches(fault: Fault, ins: Byte) {
    fault.remaining > 0 && (fault.ins.None? || fault.ins.value == ins)
  }

  /** Index of the first queued fault for `ins`; the queue's length if there is none. */
  function FirstFault(faults: seq<Fault>, ins: Byte): (i: nat)
    ensures i <= |faults|
    ensures i < |faults| ==> Matches(faults[i], ins)
    ensures forall j :: 0 <= j < i ==> !Matches(faults[j], ins)
  {
    if faults == [] || Matches(faults[0], ins) then 0 else 1 + FirstFault(faults[1..], ins)
  }

  function AfterFault(faults: seq<Fault>, i: nat): seq<Fault>
    requires i < |faults| && faults[i].remaining > 0
  {
    if faults[i].remaining == 1 then faults[..i] + faults[i + 1..]
    else faults[i := faults[i].(remaining := faults[i].remaining - 1)]
  }

  predicate Faulted(s: Card, ins: Byte) { FirstFault(s.faults, ins) < |s.faults| }

  function FaultWord(sw: nat): Bytes { [sw / 256 % 256, sw % 256] }

  function DispatchCommand(chip: Chip, s: Card, apdu: Bytes, now: int, drawn: Bytes): (Card, Reply) {
    if |apdu| < 4 then (s, Say([0x6F, 0x00]))
    else
      var i := FirstFault(s.faults, apdu[1]);
      if i < |s.faults| then (s.(faults := AfterFault(s.faults, i)), Say(FaultWord(s.faults[i].sw)))
      else Execute(chip, s, Route(s, apdu), ApduBody(apdu), now, drawn)
  }

  /** Under `--require-select`, everything but SELECT is refused while no applet is selected. */
  predicate NoApplet(s: Card, apdu: Bytes) {
    s.requireSelect && !s.session.selectedPiv && !s.session.selectedOtp && |apdu| > 1 && apdu[1] != INS_SELECT
  }

  predicate IsVerify(apdu: Bytes) { |apdu| > 1 && apdu[1] == INS_VERIFY }

  function Dispatch(chip: Chip, s: Card, apdu: Bytes, now: int, drawn: Bytes): (Card, Reply) {
    if NoApplet(s, apdu) then (s, Say(SW_UNSUPPORTED))
    else
      var (s', reply) := DispatchCommand(chip, s, apdu, now, drawn);
      (if IsVerify(apdu) || reply.awaiting.Some? then s' else s'.(session := s'.session.(commandSinceVerify := true)), reply)
  }

  // --- everything that can happen to a card ---------------------------------------------------------------------

  datatype CardOp =
    | Transmit(apdu: Bytes, now: int, drawn: Bytes)
    | GrantTouch
    | SetPresent(present: bool)
    | PowerUp
    | PowerDown
    | EndTransaction(disposition: nat)
    | InjectFault(fault: Fault)
    | ClearFaults
    | SeedKey(slot: Byte, scalar: Bytes)
    | AdvanceClock(millis: int)

  function ClearedSession(session: Session): Session {
    session.(selectedPiv := false, selectedOtp := false, pinVerified := false, pendingWitness := None, mgmtAuthenticated := false)
  }

  /** What losing power, or leaving the reader, costs the session. */
  function ResetSession(s: Card): Card {
    s.(session := ClearedSession(s.session))
  }

  function PowerOff(s: Card): Card {
    s.(session := ClearedSession(s.session).(powered := false))
  }

  function Insert(s: Card, present: bool): Card {
    var gone := if !present && s.inserted then PowerOff(s).(pad := Touch.Apply(s.pad, Touch.Clear)) else s;
    gone.(inserted := present, eventCounter := if present != s.inserted then (s.eventCounter + 1) % TWO_32 else s.eventCounter)
  }

  predicate Resets(disposition: nat) { disposition in {DISPOSITION_RESET, DISPOSITION_UNPOWER} }

  /** A seeded key carries no configured policy and no on-card origin. */
  function Seed(keys: Keys, slot: Byte, scalar: Bytes): Keys {
    Keys(keys.scalars[slot := scalar], keys.policies - {slot}, keys.origins - {slot})
  }

  function Step(chip: Chip, s: Card, op: CardOp): (Card, Reply) {
    match op
    case Transmit(apdu, now, drawn) => Dispatch(chip, s, apdu, now, drawn)
    case GrantTouch => (s.(pad := Touch.Apply(s.pad, Touch.Grant)), Say([]))
    case SetPresent(present) => (Insert(s, present), Say([]))
    case PowerUp => (s.(session := s.session.(powered := true, selectedPiv := false, selectedOtp := false)), Say([]))
    case PowerDown => (PowerOff(s), Say([]))
    case EndTransaction(disposition) => (if Resets(disposition) then ResetSession(s) else s, Say([]))
    case InjectFault(fault) => (if fault.remaining == 0 then s else s.(faults := s.faults + [fault]), Say([]))
    case ClearFaults => (s.(faults := []), Say([]))
    case SeedKey(slot, scalar) => (if slot in SLOTS then s.(keys := Seed(s.keys, slot, scalar)) else s, Say([]))
    case AdvanceClock(millis) => (s.(clockSkew := s.clockSkew + millis), Say([]))
  }

  /** The card after a run of operations. */
  function Run(chip: Chip, s: Card, ops: seq<CardOp>): Card {
    if ops == [] then s else Step(chip, Run(chip, s, ops[..|ops| - 1]), ops[|ops| - 1]).0
  }

  /** The state just before the `k`-th operation of a run. */
  function At(chip: Chip, s: Card, ops: seq<CardOp>, k: nat): Card
    requires k <= |ops|
  {
    Run(chip, s, ops[..k])
  }

  /** A card as constructed and seeded, before any command or session. */
  predicate Initial(s: Card) {
    && !s.session.pinVerified && !s.session.mgmtAuthenticated && s.pad == Touch.FRESH_PAD && s.faults == []
    && |s.pins.pin| == 8 && |s.pins.puk| == 8 && s.pins.pinRetries <= DEFAULT_RETRIES && s.pins.pukRetries <= DEFAULT_RETRIES
    && s.keys.policies == map[] && s.keys.origins == map[] && s.keys.scalars.Keys <= SLOTS
  }

  lemma {:induction false} RunAppends(chip: Chip, s: Card, first: seq<CardOp>, later: seq<CardOp>)
    ensures Run(chip, s, first + later) == Run(chip, Run(chip, s, first), later)
  {
    hide Step;
    if later == [] {
      assert first + later == first;
    } else {
      var n := |later| - 1;
      assert (first + later)[..|first| + n] == first + later[..n];
      RunAppends(chip, s, first, later[..n]);
    }
  }
}
