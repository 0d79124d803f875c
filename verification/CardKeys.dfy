/** When a key is made or brought, and what is answered (crates/fibby/src/virtual_card.rs). */
module CardKeys {
  import opened Base
  import opened ApduParse
  import opened Card
  import opened CardHistory
  import opened CardContents

  /** An absent tag or one of the four defined bytes. */
  predicate Defined(policy: Option<Byte>) { policy.Some? ==> policy.value <= 3 }

  /** `7F49 <len> 86 <len> <point> 90 00`, for points as long as those of P-256. */
  lemma PointWrapped(point: Bytes)
    requires |point| == 65
    ensures Wrap([0x7F, 0x49], Wrap([0x86], point)) + SW_OK == [0x7F, 0x49, 0x43, 0x86, 0x41] + point + [0x90, 0x00]
  {
    assert Wrap([0x86], point) == [0x86, 0x41] + point;
    assert Wrap([0x7F, 0x49], Wrap([0x86], point)) == [0x7F, 0x49, 0x43] + ([0x86, 0x41] + point);
    assert [0x7F, 0x49, 0x43] + ([0x86, 0x41] + point) == [0x7F, 0x49, 0x43, 0x86, 0x41] + point;
  }

  /** Everything a GENERATE must have, and which refusal it gets otherwise. */
  lemma GenerateIs(chip: Chip, s: Card, slot: Byte, body: Option<Bytes>, drawn: Bytes)
    ensures var (keys, reply) := Generate(chip, s, slot, body, drawn);
            var request := if body.Some? then GenerateFields(body.value) else None;
            var scalar := if slot in s.generateOverrides then s.generateOverrides[slot] else drawn;
            if !s.session.mgmtAuthenticated then reply == [0x69, 0x82]
            else if request.None? || request.value.alg != 0x11 then reply == [0x6A, 0x80]
            else if slot !in {0x9A, 0x9C, 0x9D} then reply == [0x6A, 0x86]
            else if !Defined(request.value.pin) || !Defined(request.value.touch) || !chip.validScalar(scalar) then reply == [0x6A, 0x80]
            else
              && |reply| > 2
              && (|chip.publicPoint(scalar)| == 65 ==>
                    reply == [0x7F, 0x49, 0x43, 0x86, 0x41] + chip.publicPoint(scalar) + [0x90, 0x00])
  {
    hide GenerateFields, Install, PushBerLen;
    var scalar := if slot in s.generateOverrides then s.generateOverrides[slot] else drawn;
    if |chip.publicPoint(scalar)| == 65 { PointWrapped(chip.publicPoint(scalar)); }
  }

  /** The same for an IMPORT. */
  lemma ImportIs(chip: Chip, s: Card, alg: Byte, slot: Byte, body: Option<Bytes>)
    ensures var reply := Import(chip, s, alg, slot, body).1;
            var request := if body.Some? then ImportFields(body.value) else None;
            if !s.session.mgmtAuthenticated then reply == [0x69, 0x82]
            else if alg != 0x11 then reply == [0x6A, 0x80]
            else if slot !in {0x9A, 0x9C, 0x9D, 0x9E} then reply == [0x6A, 0x86]
            else if request.None? || !chip.validScalar(request.value.scalar)
                    || !Defined(request.value.pin) || !Defined(request.value.touch) then reply == [0x6A, 0x80]
            else reply == [0x90, 0x00]
  {
    hide ImportFields, Install;
  }

  /**
   * A key appears in a slot exactly for an authenticated admin with a well-formed request of
   * defined policies for a valid scalar, and then it is the scalar and the policy of that request.
   */
  lemma KeysArriveIff(chip: Chip, s: Card, op: CardOp, slot: Byte)
    requires Running(s, op) == Some(GenerateKey(slot))
    ensures var body := ApduBody(op.apdu);
            var request := if body.Some? then GenerateFields(body.value) else None;
            var scalar := if slot in s.generateOverrides then s.generateOverrides[slot] else op.drawn;
            Brought(chip, s, op, slot) ==
            if s.session.mgmtAuthenticated && request.Some? && request.value.alg == 0x11 && slot in {0x9A, 0x9C, 0x9D}
               && Defined(request.value.pin) && Defined(request.value.touch) && chip.validScalar(scalar)
            then Some(Arrival(OnCard, scalar, Asked(request.value.pin, request.value.touch)))
            else None
  {
    hide Execute, Route, ApduBody, Step, GenerateFields, ImportFields, Generate;
    RunningDispatches(chip, s, op);
    ExecuteOneOf(chip, s, GenerateKey(slot), ApduBody(op.apdu), op.now, op.drawn);
    GenerateIs(chip, s, slot, ApduBody(op.apdu), op.drawn);
  }

  lemma ImportsArriveIff(chip: Chip, s: Card, op: CardOp, alg: Byte, slot: Byte)
    requires Running(s, op) == Some(ImportKey(alg, slot))
    ensures var body := ApduBody(op.apdu);
            var request := if body.Some? then ImportFields(body.value) else None;
            Brought(chip, s, op, slot) ==
            if s.session.mgmtAuthenticated && alg == 0x11 && slot in {0x9A, 0x9C, 0x9D, 0x9E} && request.Some?
               && chip.validScalar(request.value.scalar) && Defined(request.value.pin) && Defined(request.value.touch)
            then Some(Arrival(OverTheWire, request.value.scalar, Asked(request.value.pin, request.value.touch)))
            else None
  {
    hide Execute, Route, ApduBody, Step, GenerateFields, ImportFields, Import;
    RunningDispatches(chip, s, op);
    ExecuteOneOf(chip, s, ImportKey(alg, slot), ApduBody(op.apdu), op.now, op.drawn);
    ImportIs(chip, s, alg, slot, ApduBody(op.apdu));
  }
}
