/** What stands before a command: the card inserted, the applet selected and the faults injected (crates/fibby/src/virtual_card.rs). */
module CardGates {
  import opened Base
  import opened ApduParse
  import opened Card
  import opened CardHistory

  // --- the selected applet ------------------------------------------------------------

  datatype Applet = Nothing | Piv | Otp

  /** A SELECT by name that ran, and what it names: an AID starting with the PIV or the OTP one. */
  function Selects(s: Card, op: CardOp): Applet {
    if Running(s, op) != Some(SelectApplet) then Nothing
    else
      var aid := if ApduBody(op.apdu).Some? then ApduBody(op.apdu).value else [];
      if [0xA0, 0x00, 0x00, 0x03, 0x08] <= aid then Piv
      else if [0xA0, 0x00, 0x00, 0x05, 0x27, 0x20, 0x01, 0x01] <= aid then Otp
      else Nothing
  }

  /** Powering up and whatever ends a session leave nothing selected. */
  predicate Deselects(s: Card, op: CardOp) {
    match op
    case PowerUp => true
    case PowerDown => true
    case SetPresent(present) => !present && s.inserted
    case EndTransaction(disposition) => disposition == 1 || disposition == 2
    case _ => false
  }

  function AppletAfter(s: Card, op: CardOp, before: Applet): Applet {
    if Deselects(s, op) then Nothing else if Selects(s, op) != Nothing then Selects(s, op) else before
  }

  /** The applet last selected by name since the card was last powered or reset. */
  function AppletOf(chip: Chip, s: Card, ops: seq<CardOp>): Applet {
    if ops == [] then Nothing
    else AppletAfter(Run(chip, s, ops[..|ops| - 1]), ops[|ops| - 1], AppletOf(chip, s, ops[..|ops| - 1]))
  }

  predicate Selected(session: Session, applet: Applet) {
    session.selectedPiv == (applet == Piv) && session.selectedOtp == (applet == Otp)
  }

  /** Only SELECT touches the selection; its answer says whether it found the applet. */
  lemma ExecuteSelection(chip: Chip, s: Card, command: Command, body: Option<Bytes>, now: int, drawn: Bytes)
    ensures var s' := Execute(chip, s, command, body, now, drawn).0;
            var reply := Execute(chip, s, command, body, now, drawn).1;
            if command.SelectApplet? then s'.session == Select(chip, s.session, body).0 && reply == Say(Select(chip, s.session, body).1)
            else s'.session.selectedPiv == s.session.selectedPiv && s'.session.selectedOtp == s.session.selectedOtp
  {
    hide Select, SetMgmtKey, GetData, PutData, Attest, Metadata, ChangeReference, Generate, Import,
         GaSignRequest, GaEcdhRequest, TouchGate, PinSatisfied, EffectivePin;
  }

  lemma SelectionCommand(chip: Chip, s: Card, op: CardOp, applet: Applet)
    requires Running(s, op).Some? && Selected(s.session, applet)
    ensures Selected(Step(chip, s, op).0.session, AppletAfter(s, op, applet))
  {
    hide Execute, Route, ApduBody, IsVerify, Step;
    RunningDispatches(chip, s, op);
    ExecuteSelection(chip, s, Running(s, op).value, ApduBody(op.apdu), op.now, op.drawn);
  }

  lemma SelectionStep(chip: Chip, s: Card, op: CardOp, applet: Applet)
    requires Selected(s.session, applet)
    ensures Selected(Step(chip, s, op).0.session, AppletAfter(s, op, applet))
  {
    if Running(s, op).Some? {
      SelectionCommand(chip, s, op, applet);
    } else {
      hide Dispatch, Route, ApduBody;
      if op.Transmit? { NotRunning(chip, s, op); }
    }
  }

  /** In every reachable state the selected applet is the one the history says. */
  lemma {:induction false} SelectionFollowsHistory(chip: Chip, s: Card, ops: seq<CardOp>)
    requires Selected(s.session, Nothing)
    ensures Selected(Run(chip, s, ops).session, AppletOf(chip, s, ops))
  {
    hide Step, AppletAfter, Selected;
    if ops != [] {
      SelectionFollowsHistory(chip, s, ops[..|ops| - 1]);
      SelectionStep(chip, Run(chip, s, ops[..|ops| - 1]), ops[|ops| - 1], AppletOf(chip, s, ops[..|ops| - 1]));
    }
  }

  /** A card that wants an applet selected first refuses everything but SELECT until one is, and nothing happens on it. */
  lemma UnselectedRefuses(chip: Chip, s: Card, ops: seq<CardOp>, op: CardOp)
    requires Selected(s.session, Nothing) && op.Transmit? && |op.apdu| >= 2
    requires Run(chip, s, ops).requireSelect && AppletOf(chip, s, ops) == Nothing && op.apdu[1] != 0xA4
    ensures Step(chip, Run(chip, s, ops), op) == (Run(chip, s, ops), Say([0x6D, 0x00]))
  {
    hide DispatchCommand, Run, AppletOf;
    SelectionFollowsHistory(chip, s, ops);
  }

  // --- injected faults --------------------------------------------------------------------

  /** How many answers the queued faults still owe. */
  function Owed(faults: seq<Fault>): nat {
    if faults == [] then 0 else Owed(faults[..|faults| - 1]) + faults[|faults| - 1].remaining
  }

  lemma {:induction false} OwedJoins(a: seq<Fault>, b: seq<Fault>)
    ensures Owed(a + b) == Owed(a) + Owed(b)
  {
    if b == [] {
      assert a + b == a;
    } else {
      assert (a + b)[..|a + b| - 1] == a + b[..|b| - 1];
      OwedJoins(a, b[..|b| - 1]);
    }
  }

  lemma OwedByOne(fault: Fault)
    ensures Owed([fault]) == fault.remaining
  {
    assert [fault][..0] == [];
  }

  /** Injected for that instruction or for any, and not used up. */
  predicate Covers(fault: Fault, ins: Byte) { fault.remaining > 0 && fault.ins in {None, Some(ins)} }

  /** A command answered by a fault: let through by the applet gate, and one is queued for it. */
  predicate AnsweredByFault(s: Card, op: CardOp) {
    op.Transmit? && !NoApplet(s, op.apdu) && |op.apdu| >= 4 && exists k :: 0 <= k < |s.faults| && Covers(s.faults[k], op.apdu[1])
  }

  /** The card takes the first fault that covers the instruction. */
  lemma FirstToCover(faults: seq<Fault>, ins: Byte, k: nat)
    requires k <= |faults| && (k < |faults| ==> Covers(faults[k], ins)) && forall j :: 0 <= j < k ==> !Covers(faults[j], ins)
    ensures FirstFault(faults, ins) == k
  {
    hide FirstFault;
    forall j | 0 <= j < |faults| ensures Covers(faults[j], ins) == Matches(faults[j], ins) {}
    assert k < |faults| ==> Matches(faults[k], ins);
    assert forall j :: 0 <= j < k ==> !Matches(faults[j], ins);
  }

  lemma FaultedIff(s: Card, op: CardOp)
    requires op.Transmit? && |op.apdu| >= 4
    ensures Faulted(s, op.apdu[1]) <==> exists k :: 0 <= k < |s.faults| && Covers(s.faults[k], op.apdu[1])
  {
    var i, ins := FirstFault(s.faults, op.apdu[1]), op.apdu[1];
    hide FirstFault;
    forall j | 0 <= j < |s.faults| ensures Covers(s.faults[j], ins) == Matches(s.faults[j], ins) {}
  }

  lemma SpendsOne(faults: seq<Fault>, i: nat)
    requires i < |faults| && faults[i].remaining > 0
    ensures Owed(AfterFault(faults, i)) == Owed(faults) - 1
  {
    hide Owed;
    var before, fault, after := faults[..i], faults[i], faults[i + 1..];
    assert faults == before + [fault] + after;
    OwedJoins(before + [fault], after);
    OwedJoins(before, [fault]);
    OwedByOne(fault);
    if fault.remaining == 1 {
      OwedJoins(before, after);
    } else {
      var less := fault.(remaining := fault.remaining - 1);
      assert AfterFault(faults, i) == before + [less] + after;
      OwedJoins(before + [less], after);
      OwedJoins(before, [less]);
      OwedByOne(less);
    }
  }

  /** A faulted command answers the status word of the first fault queued for it, and spends one of its uses; nothing else is processed. */
  lemma FaultAnswers(chip: Chip, s: Card, op: CardOp, k: nat)
    requires AnsweredByFault(s, op) && k < |s.faults| && Covers(s.faults[k], op.apdu[1])
    requires forall j :: 0 <= j < k ==> !Covers(s.faults[j], op.apdu[1])
    ensures var (s', reply) := Step(chip, s, op);
            && reply == Say([s.faults[k].sw / 256 % 256, s.faults[k].sw % 256])
            && Owed(s'.faults) == Owed(s.faults) - 1
            && s'.pins == s.pins && s'.keys == s.keys && s'.objects == s.objects && s'.mgmtKey == s.mgmtKey && s'.pad == s.pad
  {
    hide Execute, Route, ApduBody, Owed, AfterFault, FirstFault, Covers;
    FirstToCover(s.faults, op.apdu[1], k);
    CoveringFaultRemains(s.faults[k], op.apdu[1]);
    SpendsOne(s.faults, k);
  }

  lemma CoveringFaultRemains(fault: Fault, ins: Byte)
    requires Covers(fault, ins)
    ensures fault.remaining > 0
  {
  }

  /** Answers the operations of a run put into the queue, if the queue is never cleared. */
  function Injected(ops: seq<CardOp>): nat {
    if ops == [] then 0
    else Injected(ops[..|ops| - 1]) + (if ops[|ops| - 1].InjectFault? then ops[|ops| - 1].fault.remaining else 0)
  }

  /** Commands of a run that a fault answered. */
  function FaultedCommands(chip: Chip, s: Card, ops: seq<CardOp>): nat {
    if ops == [] then 0
    else
      FaultedCommands(chip, s, ops[..|ops| - 1]) +
      (if AnsweredByFault(Run(chip, s, ops[..|ops| - 1]), ops[|ops| - 1]) then 1 else 0)
  }

  lemma OwedStep(chip: Chip, s: Card, op: CardOp)
    ensures op.ClearFaults? ==> Step(chip, s, op).0.faults == []
    ensures !op.ClearFaults? ==>
              Owed(Step(chip, s, op).0.faults) + (if AnsweredByFault(s, op) then 1 else 0) ==
              Owed(s.faults) + (if op.InjectFault? then op.fault.remaining else 0)
  {
    if op.Transmit? {
      TransmitOwes(chip, s, op);
    } else {
      hide Dispatch;
      if op.InjectFault? {
        OwedJoins(s.faults, [op.fault]);
        OwedByOne(op.fault);
      }
    }
  }

  lemma TransmitOwes(chip: Chip, s: Card, op: CardOp)
    requires op.Transmit?
    ensures Owed(Step(chip, s, op).0.faults) + (if AnsweredByFault(s, op) then 1 else 0) == Owed(s.faults)
  {
    hide Execute, Route, ApduBody, Owed, AfterFault, NoApplet;
    if |op.apdu| >= 4 {
      FaultedIff(s, op);
      var i := FirstFault(s.faults, op.apdu[1]);
      if i < |s.faults| { SpendsOne(s.faults, i); }
      ExecuteFrame(chip, s, Route(s, op.apdu), ApduBody(op.apdu), op.now, op.drawn);
    }
  }

  /** Every fault answers as often as it was injected for, no more: answers given plus answers owed are what was put in. */
  lemma {:induction false} FaultsAreConserved(chip: Chip, s: Card, ops: seq<CardOp>)
    requires s.faults == [] && forall op :: op in ops ==> !op.ClearFaults?
    ensures FaultedCommands(chip, s, ops) + Owed(Run(chip, s, ops).faults) == Injected(ops)
  {
    hide Step, AnsweredByFault;
    if ops != [] {
      var n := |ops| - 1;
      assert forall op :: op in ops[..n] ==> op in ops;
      assert ops[n] in ops;
      FaultsAreConserved(chip, s, ops[..n]);
      OwedStep(chip, Run(chip, s, ops[..n]), ops[n]);
    }
  }

  // --- insertion and removal -----------------------------------------------------------------

  /** Whether the card is in the reader after a run: what was last said about it, or how it began. */
  function InsertedAfter(inserted: bool, ops: seq<CardOp>): bool {
    if ops == [] then inserted
    else if ops[|ops| - 1].SetPresent? then ops[|ops| - 1].present
    else InsertedAfter(inserted, ops[..|ops| - 1])
  }

  /** Insertions and removals that changed anything. */
  function Toggles(inserted: bool, ops: seq<CardOp>): nat {
    if ops == [] then 0
    else
      var before, op := ops[..|ops| - 1], ops[|ops| - 1];
      Toggles(inserted, before) + (if op.SetPresent? && op.present != InsertedAfter(inserted, before) then 1 else 0)
  }

  /** By how much a run has moved the card's touch clock. */
  function Advanced(ops: seq<CardOp>): int {
    if ops == [] then 0
    else Advanced(ops[..|ops| - 1]) + (if ops[|ops| - 1].AdvanceClock? then ops[|ops| - 1].millis else 0)
  }

  lemma ExecuteInsertion(chip: Chip, s: Card, command: Command, body: Option<Bytes>, now: int, drawn: Bytes)
    ensures var s' := Execute(chip, s, command, body, now, drawn).0; s'.inserted == s.inserted && s'.eventCounter == s.eventCounter && s'.clockSkew == s.clockSkew
  {
    hide Verify, ChangeReference, ResetRetry, MgmtAuth, SetMgmtKey, Select, PutData, Generate, Import, Sign, Agree, GetData,
         Attest, Metadata;
  }

  lemma InsertionStep(chip: Chip, s: Card, op: CardOp)
    ensures var s' := Step(chip, s, op).0;
            && s'.inserted == (if op.SetPresent? then op.present else s.inserted)
            && s'.eventCounter ==
               (if op.SetPresent? && op.present != s.inserted then (s.eventCounter + 1) % TWO_32 else s.eventCounter)
            && s'.clockSkew == s.clockSkew + (if op.AdvanceClock? then op.millis else 0)
  {
    hide Execute, Route, ApduBody, FirstFault, AfterFault;
    if op.Transmit? && |op.apdu| >= 4 { ExecuteInsertion(chip, s, Route(s, op.apdu), ApduBody(op.apdu), op.now, op.drawn); }
  }

  /**
   * The reader's event counter counts the toggles, modulo 2^32, and nothing else; inserting an inserted
   * card is none. The touch clock is ahead by what it was advanced.
   */
  lemma {:induction false} EventsCountToggles(chip: Chip, s: Card, ops: seq<CardOp>)
    requires s.eventCounter < TWO_32
    ensures Run(chip, s, ops).inserted == InsertedAfter(s.inserted, ops)
    ensures Run(chip, s, ops).clockSkew == s.clockSkew + Advanced(ops)
    ensures Run(chip, s, ops).eventCounter == (s.eventCounter + Toggles(s.inserted, ops)) % TWO_32
  {
    hide Step;
    if ops != [] {
      var n := |ops| - 1;
      EventsCountToggles(chip, s, ops[..n]);
      InsertionStep(chip, Run(chip, s, ops[..n]), ops[n]);
    }
  }
}
