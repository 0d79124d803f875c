/**
 * What the virtual card holds after any run: where each key came from, and the
 * data objects it stores (crates/fibby/src/virtual_card.rs).
 */
module CardContents {
  import opened Base
  import opened ApduParse
  import opened Card
  import opened CardHistory
  import Touch

  // --- key provenance -------------------------------------------------------------

  datatype Source = OnCard | OverTheWire | Seeded

  /** How the key now in a slot got there, and what it came with. */
  datatype Arrival = Arrival(source: Source, scalar: Bytes, policy: Policy)

  /** A GENERATE that answered a public key, for `slot`. */
  predicate Generates(chip: Chip, s: Card, op: CardOp, slot: Byte) {
    Running(s, op) == Some(GenerateKey(slot)) && |Step(chip, s, op).1.bytes| > 2
  }

  /** An IMPORT that answered success, for `slot`. */
  predicate Imports(chip: Chip, s: Card, op: CardOp, slot: Byte) {
    Running(s, op).Some? && Running(s, op).value.ImportKey? && Running(s, op).value.slot == slot &&
    Step(chip, s, op).1.bytes == SW_OK
  }

  /** The policy a request's optional tags ask for. */
  function Asked(pin: Option<Byte>, touch: Option<Byte>): Policy {
    Policy(if pin.Some? then pin.value else 0, if touch.Some? then touch.value else 0)
  }

  /** What the request of a successful GENERATE or IMPORT brought. */
  function Brought(chip: Chip, s: Card, op: CardOp, slot: Byte): Option<Arrival> {
    if Generates(chip, s, op, slot) && ApduBody(op.apdu).Some? && GenerateFields(ApduBody(op.apdu).value).Some? then
      var request := GenerateFields(ApduBody(op.apdu).value).value;
      Some(Arrival(OnCard, if slot in s.generateOverrides then s.generateOverrides[slot] else op.drawn,
                   Asked(request.pin, request.touch)))
    else if Imports(chip, s, op, slot) && ApduBody(op.apdu).Some? && ImportFields(ApduBody(op.apdu).value).Some? then
      var request := ImportFields(ApduBody(op.apdu).value).value;
      Some(Arrival(OverTheWire, request.scalar, Asked(request.pin, request.touch)))
    else None
  }

  /** The last arrival in `slot` that no factory reset has undone. */
  function LastArrival(chip: Chip, s: Card, ops: seq<CardOp>, slot: Byte): Option<Arrival> {
    if ops == [] then
      (if slot in s.keys.scalars then Some(Arrival(Seeded, s.keys.scalars[slot], Policy(0, 0))) else None)
    else
      var n := |ops| - 1;
      NextArrival(chip, Run(chip, s, ops[..n]), ops[n], slot, LastArrival(chip, s, ops[..n], slot))
  }

  /** The card's three key tables say of `slot` exactly what `arrival` says. */
  predicate Holds(chip: Chip, keys: Keys, slot: Byte, arrival: Option<Arrival>) {
    && (slot in keys.scalars <==> arrival.Some?)
    && (slot in keys.policies <==> slot in keys.origins)
    && (slot in keys.origins <==> arrival.Some? && arrival.value.source != Seeded)
    && (arrival.Some? ==> keys.scalars[slot] == arrival.value.scalar)
    && (slot in keys.origins ==>
          keys.policies[slot] == arrival.value.policy &&
          keys.origins[slot] == (if arrival.value.source == OnCard then Generated else Imported))
    && (arrival.Some? && arrival.value.source == Seeded ==> arrival.value.policy == Policy(0, 0))
    && (arrival.Some? && arrival.value.source != Seeded ==> chip.validScalar(arrival.value.scalar))
  }

  lemma GeneratedKeys(chip: Chip, s: Card, slot: Byte, body: Option<Bytes>, drawn: Bytes)
    ensures var (keys, reply) := Generate(chip, s, slot, body, drawn);
            if |reply| > 2 then
              && body.Some? && GenerateFields(body.value).Some?
              && var request := GenerateFields(body.value).value;
                 var scalar := if slot in s.generateOverrides then s.generateOverrides[slot] else drawn;
                 chip.validScalar(scalar) &&
                 keys == Install(s.keys, slot, scalar, Asked(request.pin, request.touch), Generated)
            else keys == s.keys
  {
    hide GenerateFields;
  }

  lemma ImportedKeys(chip: Chip, s: Card, alg: Byte, slot: Byte, body: Option<Bytes>)
    ensures var (keys, reply) := Import(chip, s, alg, slot, body);
            if reply == SW_OK then
              && body.Some? && ImportFields(body.value).Some?
              && var request := ImportFields(body.value).value;
                 chip.validScalar(request.scalar) &&
                 keys == Install(s.keys, slot, request.scalar, Asked(request.pin, request.touch), Imported)
            else keys == s.keys
  {
    hide ImportFields;
  }

  /** What one running command does to the key tables. */
  lemma CommandKeys(chip: Chip, s: Card, op: CardOp)
    requires Running(s, op).Some?
    ensures var keys := Step(chip, s, op).0.keys;
            match Running(s, op).value
            case GenerateKey(slot) =>
              if Generates(chip, s, op, slot) then
                var a := Brought(chip, s, op, slot);
                a.Some? && a.value.source == OnCard && chip.validScalar(a.value.scalar) &&
                keys == Install(s.keys, slot, a.value.scalar, a.value.policy, Generated)
              else keys == s.keys
            case ImportKey(_, slot) =>
              if Imports(chip, s, op, slot) then
                var a := Brought(chip, s, op, slot);
                a.Some? && a.value.source == OverTheWire && chip.validScalar(a.value.scalar) &&
                keys == Install(s.keys, slot, a.value.scalar, a.value.policy, Imported)
              else keys == s.keys
            case Wipe => keys == if Wiped(s, op) then NO_KEYS else s.keys
            case _ => keys == s.keys
  {
    hide Execute, Route, Generate, Import, Step, GenerateFields, ImportFields;
    var command, body := Running(s, op).value, ApduBody(op.apdu);
    RunningDispatches(chip, s, op);
    ExecuteOneOf(chip, s, command, body, op.now, op.drawn);
    ExecuteFrame(chip, s, command, body, op.now, op.drawn);
    match command
    case GenerateKey(slot) => GeneratedKeys(chip, s, slot, body, op.drawn);
    case ImportKey(alg, slot) => ImportedKeys(chip, s, alg, slot, body);
    case _ =>
  }

  /** What a non-command operation does to the key tables. */
  lemma OtherOperationKeys(chip: Chip, s: Card, op: CardOp)
    requires Running(s, op).None?
    ensures Step(chip, s, op).0.keys == if op.SeedKey? && op.slot in SLOTS then Seed(s.keys, op.slot, op.scalar) else s.keys
  {
    hide Dispatch, Seed;
    if op.Transmit? { NotRunning(chip, s, op); }
  }

  function NextArrival(chip: Chip, s: Card, op: CardOp, slot: Byte, before: Option<Arrival>): Option<Arrival> {
    if Wiped(s, op) then None
    else if op.SeedKey? && op.slot == slot && slot in SLOTS then Some(Arrival(Seeded, op.scalar, Policy(0, 0)))
    else if Brought(chip, s, op, slot).Some? then Brought(chip, s, op, slot)
    else before
  }

  lemma KeysFollowArrivals(chip: Chip, s: Card, op: CardOp, slot: Byte, before: Option<Arrival>)
    requires Holds(chip, s.keys, slot, before)
    ensures Holds(chip, Step(chip, s, op).0.keys, slot, NextArrival(chip, s, op, slot, before))
  {
    hide Route, Step, GenerateFields, ImportFields, ApduBody;
    if Running(s, op).Some? {
      CommandKeys(chip, s, op);
    } else {
      OtherOperationKeys(chip, s, op);
    }
  }

  /** In every reachable state the key tables are what the history of arrivals says. */
  lemma {:induction false} ProvenanceFollowsTheKey(chip: Chip, s: Card, ops: seq<CardOp>, slot: Byte)
    requires Initial(s)
    ensures Holds(chip, Run(chip, s, ops).keys, slot, LastArrival(chip, s, ops, slot))
  {
    hide Step, NextArrival;
    if ops != [] {
      hide Holds;
      var n := |ops| - 1;
      ProvenanceFollowsTheKey(chip, s, ops[..n], slot);
      KeysFollowArrivals(chip, Run(chip, s, ops[..n]), ops[n], slot, LastArrival(chip, s, ops[..n], slot));
    }
  }

  /**
   * ATTEST answers a certificate exactly when the key now in the slot was generated on
   * this card, and it certifies that key's public point and the policy it arrived with.
   */
  lemma AttestIffGeneratedHere(chip: Chip, s: Card, ops: seq<CardOp>, op: CardOp, slot: Byte)
    requires Initial(s) && Running(Run(chip, s, ops), op) == Some(AttestKey(slot))
    ensures var a, reply := LastArrival(chip, s, ops, slot), Step(chip, Run(chip, s, ops), op).1.bytes;
            if a.Some? && a.value.source == OnCard
            then reply == chip.attest(slot, chip.publicPoint(a.value.scalar), a.value.policy) + [0x90, 0x00]
            else reply == [0x6A, 0x80]
  {
    hide Execute, Route, Step, Run, LastArrival;
    ProvenanceFollowsTheKey(chip, s, ops, slot);
    RunningDispatches(chip, Run(chip, s, ops), op);
    ExecuteOneOf(chip, Run(chip, s, ops), AttestKey(slot), ApduBody(op.apdu), op.now, op.drawn);
  }

  /** GET METADATA reports the policy, the origin and the point of the key now in the slot. */
  lemma MetadataReportsTheArrival(chip: Chip, s: Card, ops: seq<CardOp>, op: CardOp, slot: Byte)
    requires Initial(s) && Running(Run(chip, s, ops), op) == Some(ReadMetadata(slot))
    ensures var a, reply := LastArrival(chip, s, ops, slot), Step(chip, Run(chip, s, ops), op).1.bytes;
            if a.Some? && chip.validScalar(a.value.scalar)
            then
              DescribesKey(reply, a.value.policy, if a.value.source == OnCard then 1 else 2, chip.publicPoint(a.value.scalar))
            else reply == [0x6A, 0x88]
  {
    hide Execute, Route, Step, Run, LastArrival, DescribesKey;
    ProvenanceFollowsTheKey(chip, s, ops, slot);
    RunningDispatches(chip, Run(chip, s, ops), op);
    ExecuteOneOf(chip, Run(chip, s, ops), ReadMetadata(slot), ApduBody(op.apdu), op.now, op.drawn);
    var a := LastArrival(chip, s, ops, slot);
    if a.Some? && chip.validScalar(a.value.scalar) {
      MetadataLayout(chip, Run(chip, s, ops).keys, slot);
    }
  }

  predicate EndsWith(b: Bytes, tail: Bytes) { |tail| <= |b| && b[|b| - |tail|..] == tail }

  /** Algorithm, policies, origin, and the public key: a TLV 86 inside a TLV 04. */
  function KeyTlvs(policy: Policy, origin: Byte, point: Bytes): seq<Tlv>
    requires |point| < 0x80
  {
    [Tlv(0x01, [0x11]), Tlv(0x02, [policy.pin, policy.touch]), Tlv(0x03, [origin]), Tlv(0x04, [0x86, |point|] + point)]
  }

  /** A metadata answer, as bytes at both ends and, for points of P-256 and any others below 128 bytes, as the TLVs it parses to. */
  predicate DescribesKey(reply: Bytes, policy: Policy, origin: Byte, point: Bytes) {
    && [0x01, 0x01, 0x11, 0x02, 0x02, policy.pin, policy.touch, 0x03, 0x01, origin] < reply
    && EndsWith(reply, point + [0x90, 0x00])
    && (|point| < 0x80 ==>
          TlvPrefix(reply[..|reply| - 2]) == KeyTlvs(policy, origin, point) && TlvTail(reply[..|reply| - 2]) == [])
  }

  /** A TLV as the card writes it is the first TLV read, whatever follows. */
  lemma WrittenTlvReads(tag: Byte, value: Bytes, rest: Bytes)
    requires |value| < 0x100
    ensures var b := [tag] + PushBerLen(|value|) + value + rest;
            SplitTlv(b) == Some((Tlv(tag, value), rest)) && TlvPrefix(b) == [Tlv(tag, value)] + TlvPrefix(rest) && TlvTail(b) == TlvTail(rest)
  {
    var b := [tag] + PushBerLen(|value|) + value + rest;
    var start := 1 + |PushBerLen(|value|)|;
    assert b[start..start + |value|] == value && b[start + |value|..] == rest;
  }

  function KeyBytes(policy: Policy, origin: Byte, point: Bytes): Bytes {
    [0x01, 0x01, 0x11, 0x02, 0x02, policy.pin, policy.touch, 0x03, 0x01, origin, 0x04]
    + PushBerLen(2 + |point|) + [0x86] + PushBerLen(|point|) + point
  }

  lemma KeyBytesAreTlvs(policy: Policy, origin: Byte, point: Bytes)
    requires |point| < 0x80
    ensures var key := [0x86, |point|] + point;
            KeyBytes(policy, origin, point) ==
            [0x01] + PushBerLen(1) + [0x11] + ([0x02] + PushBerLen(2) + [policy.pin, policy.touch]
              + ([0x03] + PushBerLen(1) + [origin] + ([0x04] + PushBerLen(|key|) + key + [])))
  {
  }

  lemma KeyBytesParse(policy: Policy, origin: Byte, point: Bytes)
    requires |point| < 0x80
    ensures TlvPrefix(KeyBytes(policy, origin, point)) == KeyTlvs(policy, origin, point) && TlvTail(KeyBytes(policy, origin, point)) == []
  {
    hide TlvPrefix, TlvTail, SplitTlv, KeyBytes, PushBerLen;
    var key := [0x86, |point|] + point;
    var b4 := [0x04] + PushBerLen(|key|) + key + [];
    var b3 := [0x03] + PushBerLen(1) + [origin] + b4;
    var b2 := [0x02] + PushBerLen(2) + [policy.pin, policy.touch] + b3;
    KeyBytesAreTlvs(policy, origin, point);
    WrittenTlvReads(0x01, [0x11], b2);
    WrittenTlvReads(0x02, [policy.pin, policy.touch], b3);
    WrittenTlvReads(0x03, [origin], b4);
    WrittenTlvReads(0x04, key, []);
    NothingLeft();
  }

  lemma MetadataLayout(chip: Chip, keys: Keys, slot: Byte)
    requires SlotPoint(chip, keys, slot).Some?
    ensures DescribesKey(Metadata(chip, keys, slot), StoredPolicy(keys, slot),
                         if slot in keys.origins && keys.origins[slot] == Generated then 1 else 2, SlotPoint(chip, keys, slot).value)
  {
    hide TlvPrefix, TlvTail, StoredPolicy, SlotPoint, PushBerLen;
    var policy, point := StoredPolicy(keys, slot), SlotPoint(chip, keys, slot).value;
    var origin: Byte := if slot in keys.origins && keys.origins[slot] == Generated then 1 else 2;
    var body, reply := KeyBytes(policy, origin, point), Metadata(chip, keys, slot);
    assert reply == body + SW_OK && reply[..|reply| - 2] == body;
    if |point| < 0x80 { KeyBytesParse(policy, origin, point); }
  }

  lemma NothingLeft()
    ensures TlvPrefix([]) == [] && TlvTail([]) == []
  {
  }

  // --- the object store ----------------------------------------------------------------

  /** What a client sends to store an object, in any encoding and length form, or anything else. */
  datatype Intent =
    | Put(tag: Bytes, form: LengthForm, payload: Bytes, trailing: Bytes, extended: bool, le: Bytes, now: int, drawn: Bytes)
    | Other(op: CardOp)

  const PUT_HEADER: Header := Header(0x00, 0xDB, 0x3F, 0xFF)
  const GET_HEADER: Header := Header(0x00, 0xCB, 0x3F, 0xFF)

  predicate WellFormed(intent: Intent) {
    match intent
    case Put(tag, form, payload, trailing, extended, _, _, _) =>
      && 1 <= |tag| <= 255 && FitsForm(form, |payload|)
      && |PutField(tag, form, payload, trailing)| <= (if extended then 0xFFFF else 255)
    case Other(op) => !op.InjectFault? && !(op.Transmit? && StoresSomething(op.apdu))
  }

  /** The data field of a PUT DATA: the tag, the object, and whatever the client appended. */
  function PutField(tag: Bytes, form: LengthForm, payload: Bytes, trailing: Bytes): Bytes
    requires 1 <= |tag| <= 255 && FitsForm(form, |payload|)
  {
    TagField(tag) + (Object53(form, payload) + trailing)
  }

  /** A PUT DATA the card can make sense of. */
  predicate StoresSomething(apdu: Bytes) {
    |apdu| >= 4 && apdu[..4] == HeaderBytes(PUT_HEADER) && PutRequest(ApduBody(apdu)).Some?
  }

  /** Every body the card stores something from is such a field. */
  lemma StoredBodiesArePutFields(body: Bytes) returns (form: LengthForm, payload: Bytes, trailing: Bytes)
    requires PutRequest(Some(body)).Some?
    ensures var (tag, object53) := PutRequest(Some(body)).value;
            && 1 <= |tag| <= 255 && FitsForm(form, |payload|)
            && body == PutField(tag, form, payload, trailing) && object53 == Object53(form, payload)
  {
    var (tag, rest) := Parse5cTag(body).value;
    assert body == TagField(tag) + rest;
    form, payload, trailing := SplitObjectIsForm(rest);
  }

  lemma ShortFormObject(o: Bytes)
    requires |o| >= 2 && o[0] == 0x53 && o[1] < 0x80 && |o| == 2 + (o[1] as int)
    ensures o == Object53(OneByte, o[2..])
  {
  }

  lemma Form81Object(o: Bytes)
    requires |o| >= 3 && o[0] == 0x53 && o[1] == 0x81 && |o| == 3 + (o[2] as int)
    ensures o == Object53(Form81, o[3..])
  {
  }

  lemma Form82Object(o: Bytes)
    requires |o| >= 4 && o[0] == 0x53 && o[1] == 0x82 && |o| == 4 + 256 * (o[2] as int) + o[3] as int
    ensures FitsForm(Form82, |o[4..]|) && o == Object53(Form82, o[4..])
  {
    assert |o[4..]| / 256 == o[2] && |o[4..]| % 256 == o[3];
  }

  lemma SplitObjectIsForm(rest: Bytes) returns (form: LengthForm, payload: Bytes, trailing: Bytes)
    requires Split53(rest).Some?
    ensures FitsForm(form, |payload|) && Split53(rest) == Some((Object53(form, payload), trailing))
    ensures rest == Object53(form, payload) + trailing
  {
    hide Object53;
    var (object53, after) := Split53(rest).value;
    trailing := after;
    assert rest == object53 + after;
    if rest[1] < 0x80 {
      form, payload := OneByte, object53[2..];
      ShortFormObject(object53);
    } else if rest[1] == 0x81 {
      form, payload := Form81, object53[3..];
      Form81Object(object53);
    } else {
      form, payload := Form82, object53[4..];
      Form82Object(object53);
    }
  }

  function Encode(h: Header, data: Bytes, extended: bool, le: Bytes): Bytes
    requires 1 <= |data| <= (if extended then 0xFFFF else 255)
  {
    if extended then ExtendedApdu(h, data, le) else ShortApdu(h, data, le)
  }

  function ToOp(intent: Intent): CardOp
    requires WellFormed(intent)
  {
    match intent
    case Put(tag, form, payload, trailing, extended, le, now, drawn) =>
      Transmit(Encode(PUT_HEADER, PutField(tag, form, payload, trailing), extended, le), now, drawn)
    case Other(op) => op
  }

  /** The body of a framed command, and how it was framed. */
  lemma FramedBody(apdu: Bytes) returns (extended: bool, le: Bytes)
    requires |apdu| >= 4 && ApduBody(apdu).Some?
    ensures var h := Header(apdu[0], apdu[1], apdu[2], apdu[3]); var data := ApduBody(apdu).value;
            1 <= |data| <= (if extended then 0xFFFF else 255) && apdu == Encode(h, data, extended, le)
  {
    var data := ApduBody(apdu).value;
    extended := apdu[4] == 0;
    if extended {
      le := apdu[7 + |data|..];
      assert |data| / 256 == apdu[5] && |data| % 256 == apdu[6];
      assert apdu == apdu[..4] + [0, apdu[5], apdu[6]] + data + le;
    } else {
      le := apdu[5 + |data|..];
      assert apdu == apdu[..4] + [apdu[4]] + data + le;
    }
  }

  /** Every APDU the card stores something from is a `Put`, whenever it comes: `Put` and `Other` leave nothing out. */
  lemma StoringApdusArePuts(apdu: Bytes, now: int, drawn: Bytes) returns (intent: Intent)
    requires StoresSomething(apdu)
    ensures intent.Put? && WellFormed(intent) && ToOp(intent) == Transmit(apdu, now, drawn)
  {
    hide ApduBody, Object53;
    var body := ApduBody(apdu).value;
    var form, payload, trailing := StoredBodiesArePutFields(body);
    var extended, le := FramedBody(apdu);
    assert Header(apdu[0], apdu[1], apdu[2], apdu[3]) == PUT_HEADER by {
      assert forall i :: 0 <= i < 4 ==> apdu[i] == apdu[..4][i];
    }
    intent := Put(PutRequest(Some(body)).value.0, form, payload, trailing, extended, le, now, drawn);
  }

  /** So every history without injected faults is a list of intents, and the theorems below are about all of them. */
  lemma {:induction false} HistoriesAreIntents(ops: seq<CardOp>) returns (intents: seq<Intent>)
    requires forall op :: op in ops ==> !op.InjectFault?
    ensures (forall i :: i in intents ==> WellFormed(i)) && ToOps(intents) == ops
  {
    hide StoresSomething, PutField, Encode;
    intents := [];
    if ops != [] {
      var n := |ops| - 1;
      assert ops[n] in ops && forall op :: op in ops[..n] ==> op in ops;
      var before := HistoriesAreIntents(ops[..n]);
      var last := Other(ops[n]);
      if ops[n].Transmit? && StoresSomething(ops[n].apdu) {
        last := StoringApdusArePuts(ops[n].apdu, ops[n].now, ops[n].drawn);
      }
      intents := before + [last];
      assert forall i :: i in intents ==> i in before || i == last;
      assert ToOps(intents) == ToOps(before) + [ToOp(last)];
      assert ops == ops[..n] + [ops[n]];
    }
  }

  function ToOps(intents: seq<Intent>): seq<CardOp>
    requires forall i :: i in intents ==> WellFormed(i)
  {
    seq(|intents|, k requires 0 <= k < |intents| => assert intents[k] in intents; ToOp(intents[k]))
  }

  /** The store as a plain map: a PUT that is not refused for want of an applet adds one entry, a factory reset empties it. */
  function Store(chip: Chip, s: Card, intents: seq<Intent>): map<Bytes, Bytes>
    requires forall i :: i in intents ==> WellFormed(i)
  {
    if intents == [] then s.objects
    else
      var n := |intents| - 1;
      var before, at := Store(chip, s, intents[..n]), Run(chip, s, ToOps(intents[..n]));
      match intents[n]
      case Put(tag, form, payload, _, _, _, _, _) =>
        if NoApplet(at, ToOp(intents[n]).apdu) then before else before[tag := Object53(form, payload)]
      case Other(op) => if Wiped(at, op) then map[] else before
  }

  lemma EncodedCommand(h: Header, data: Bytes, extended: bool, le: Bytes)
    requires 1 <= |data| <= (if extended then 0xFFFF else 255)
    ensures var apdu := Encode(h, data, extended, le);
            |apdu| >= 4 && apdu[..4] == HeaderBytes(h) && ApduBody(apdu) == Some(data)
            && apdu[0] == h.cla && apdu[1] == h.ins && apdu[2] == h.p1 && apdu[3] == h.p2
  {
    ApduCarriesItsData(h, data, le);
    var apdu := Encode(h, data, extended, le);
    assert forall i :: 0 <= i < 4 ==> apdu[i] == apdu[..4][i];
  }

  lemma NoFaultsQueued(chip: Chip, s: Card, op: CardOp)
    requires s.faults == [] && !op.InjectFault?
    ensures Step(chip, s, op).0.faults == []
  {
    hide Execute, Route, ApduBody;
    if op.Transmit? && |op.apdu| >= 4 {
      ExecuteFrame(chip, s, Route(s, op.apdu), ApduBody(op.apdu), op.now, op.drawn);
    }
  }

  lemma RoutesToWriteOnlyWithPutHeader(s: Card, apdu: Bytes)
    requires |apdu| >= 4 && Route(s, apdu) == WriteObject
    ensures apdu[..4] == HeaderBytes(PUT_HEADER)
  {
  }

  lemma ObjectStep(chip: Chip, s: Card, intent: Intent)
    requires WellFormed(intent) && s.faults == []
    ensures var s' := Step(chip, s, ToOp(intent)).0;
            && s'.faults == []
            && s'.objects == match intent
               case Put(tag, form, payload, _, _, _, _, _) =>
                 (if NoApplet(s, ToOp(intent).apdu) then s.objects else s.objects[tag := Object53(form, payload)])
               case Other(op) => (if Wiped(s, op) then map[] else s.objects)
  {
    hide Execute, Step, Object53, ApduBody, GetData, PutData, FactoryReset;
    var op := ToOp(intent);
    NoFaultsQueued(chip, s, op);
    if intent.Put? {
      PutStores(chip, s, intent);
    } else {
      OtherObjectStep(chip, s, op);
    }
  }

  lemma PutStores(chip: Chip, s: Card, intent: Intent)
    requires WellFormed(intent) && intent.Put? && s.faults == []
    ensures Step(chip, s, ToOp(intent)).0.objects ==
            if NoApplet(s, ToOp(intent).apdu) then s.objects else s.objects[intent.tag := Object53(intent.form, intent.payload)]
  {
    hide Execute, Object53, ApduBody, Step;
    var op := ToOp(intent);
    var Put(tag, form, payload, trailing, extended, le, _, _) := intent;
    EncodedCommand(PUT_HEADER, PutField(tag, form, payload, trailing), extended, le);
    ObjectFieldSplits(tag, form, payload, Object53(form, payload) + trailing);
    ObjectFieldSplits(tag, form, payload, trailing);
    if NoApplet(s, op.apdu) {
      NotRunning(chip, s, op);
    } else {
      assert Running(s, op) == Some(WriteObject);
      RunningDispatches(chip, s, op);
      ExecuteOneOf(chip, s, WriteObject, ApduBody(op.apdu), op.now, op.drawn);
    }
  }

  /** What one running command does to the object store. */
  lemma CommandObjects(chip: Chip, s: Card, op: CardOp)
    requires Running(s, op).Some?
    ensures Step(chip, s, op).0.objects ==
            match Running(s, op).value
            case WriteObject => PutData(s.objects, ApduBody(op.apdu)).0
            case Wipe => (if Wiped(s, op) then map[] else s.objects)
            case _ => s.objects
  {
    hide Step, Route, Execute, PutData, ApduBody;
    var command := Running(s, op).value;
    RunningDispatches(chip, s, op);
    ExecuteFrame(chip, s, command, ApduBody(op.apdu), op.now, op.drawn);
    if command.WriteObject? || command.Wipe? {
      ExecuteOneOf(chip, s, command, ApduBody(op.apdu), op.now, op.drawn);
    }
  }

  lemma OtherObjectStep(chip: Chip, s: Card, op: CardOp)
    requires WellFormed(Other(op)) && s.faults == []
    ensures Step(chip, s, op).0.objects == if Wiped(s, op) then map[] else s.objects
  {
    hide Dispatch, ApduBody, Route, Execute, PutRequest;
    if Running(s, op).Some? {
      CommandObjects(chip, s, op);
      if Running(s, op).value == WriteObject { RoutesToWriteOnlyWithPutHeader(s, op.apdu); }
    } else if op.Transmit? {
      NotRunning(chip, s, op);
    }
  }

  /** The card's object store is that map, after any history with no fault queued. */
  lemma {:induction false} ObjectsRefineTheMap(chip: Chip, s: Card, intents: seq<Intent>)
    requires s.faults == [] && forall i :: i in intents ==> WellFormed(i)
    ensures Run(chip, s, ToOps(intents)).objects == Store(chip, s, intents)
    ensures Run(chip, s, ToOps(intents)).faults == []
  {
    hide Step, WellFormed, ToOp, Object53, NoApplet, Wiped;
    if intents != [] {
      var n := |intents| - 1;
      assert forall i :: i in intents[..n] ==> i in intents;
      ObjectsRefineTheMap(chip, s, intents[..n]);
      assert ToOps(intents)[..n] == ToOps(intents[..n]);
      assert intents[n] in intents;
      ObjectStep(chip, Run(chip, s, ToOps(intents[..n])), intents[n]);
    }
  }

  /** GET DATA, in either encoding, answers the map's entry byte for byte, or that there is none. */
  lemma GetDataReadsTheMap(
      chip: Chip, s: Card, intents: seq<Intent>, tag: Bytes, extended: bool, le: Bytes, now: int, drawn: Bytes)
    requires s.faults == [] && forall i :: i in intents ==> WellFormed(i)
    requires 1 <= |tag| <= (if extended then 255 else 253)
    ensures var at := Run(chip, s, ToOps(intents));
            var apdu := Encode(GET_HEADER, TagField(tag), extended, le);
            Step(chip, at, Transmit(apdu, now, drawn)).1.bytes ==
            if NoApplet(at, apdu) then [0x6D, 0x00]
            else if tag in Store(chip, s, intents) then Store(chip, s, intents)[tag] + [0x90, 0x00]
            else if tag == [0x5F, 0xFF, 0x01] then chip.attestationCert + [0x90, 0x00]
            else [0x6A, 0x82]
  {
    hide Execute, Run, Store, ApduBody;
    var at := Run(chip, s, ToOps(intents));
    var op := Transmit(Encode(GET_HEADER, TagField(tag), extended, le), now, drawn);
    ObjectsRefineTheMap(chip, s, intents);
    EncodedCommand(GET_HEADER, TagField(tag), extended, le);
    ObjectFieldSplits(tag, OneByte, [], []);
    assert TagField(tag) + [] == TagField(tag);
    if !NoApplet(at, op.apdu) {
      assert Running(at, op) == Some(ReadObject);
      RunningDispatches(chip, at, op);
      ExecuteOneOf(chip, at, ReadObject, ApduBody(op.apdu), op.now, op.drawn);
    }
  }
}
