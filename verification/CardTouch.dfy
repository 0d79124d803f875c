/**
 * What a card's runs do to its touch pad and to its admin authentication
 * (crates/fibby/src/virtual_card.rs with touch.rs).
 */
module CardTouch {
  import opened Base
  import opened ApduParse
  import opened Card
  import opened CardHistory
  import Touch

  // --- the card's pad is a run of the pad ------------------------------------------

  predicate NeedsTouch(s: Card, slot: Byte) {
    EffectiveTouch(s.keys, slot) in {TOUCH_ALWAYS, TOUCH_CACHED} && !s.autoTouch
  }

  /** Asking the pad for `slot` under its policy, on the card's own clock. */
  function Ask(s: Card, slot: Byte, now: int): Touch.PadOp {
    Touch.Use(slot, EffectiveTouch(s.keys, slot) == TOUCH_CACHED, now + s.clockSkew)
  }

  function AnswerTo(s: Card, slot: Byte, now: int): Touch.Answer {
    Touch.Consume(s.pad, slot, EffectiveTouch(s.keys, slot) == TOUCH_CACHED, now + s.clockSkew).1
  }

  /** A private-key operation on `slot` answered its result: a refusal is two bytes. */
  predicate Released(chip: Chip, s: Card, op: CardOp, slot: Byte) {
    KeySlot(s, op) == Some(slot) && Step(chip, s, op).1.awaiting.None? && |Step(chip, s, op).1.bytes| > 2
  }

  lemma UseOfGate(chip: Chip, s: Card, slot: Byte, used: Used, now: int, result: Bytes)
    requires used == Release(s, slot, now, result) || (exists sw: Bytes :: |sw| == 2 && used == Refused(s, sw))
    ensures used.pad == s.pad || (NeedsTouch(s, slot) && used.pad == Touch.Apply(s.pad, Ask(s, slot, now)))
    ensures NeedsTouch(s, slot) && |used.reply.bytes| > 2 ==>
              AnswerTo(s, slot, now).Pass? && used.pad == Touch.Apply(s.pad, Ask(s, slot, now))
    ensures used.reply.awaiting.Some? ==>
              NeedsTouch(s, slot) && AnswerTo(s, slot, now) == Touch.Blocked(used.reply.awaiting.value) && used.pad == s.pad
  {
  }

  lemma SignUsesGate(chip: Chip, s: Card, slot: Byte, body: Option<Bytes>, now: int) returns (result: Bytes)
    ensures Sign(chip, s, slot, body, now) == Release(s, slot, now, result) ||
            (exists sw: Bytes :: |sw| == 2 && Sign(chip, s, slot, body, now) == Refused(s, sw))
  {
    hide GaSignRequest, Release;
    result := [];
    if PinSatisfied(s.keys, s.session, slot) && slot in s.keys.scalars && body.Some? && GaSignRequest(body.value).Some? {
      var der := chip.sign(s.keys.scalars[slot], GaSignRequest(body.value).value);
      if der.Some? { result := Wrap([0x7C], Wrap([0x82], der.value)) + SW_OK; }
    }
  }

  lemma AgreeUsesGate(chip: Chip, s: Card, body: Option<Bytes>, now: int) returns (result: Bytes)
    ensures Agree(chip, s, body, now) == Release(s, 0x9D, now, result) ||
            (exists sw: Bytes :: |sw| == 2 && Agree(chip, s, body, now) == Refused(s, sw))
  {
    hide GaEcdhRequest, Release;
    result := [];
    if PinSatisfied(s.keys, s.session, 0x9D) && 0x9D in s.keys.scalars && body.Some? && GaEcdhRequest(body.value).Some? {
      result := [0x7C, 0x22, 0x82, 0x20] + chip.agree(s.keys.scalars[0x9D], GaEcdhRequest(body.value).value) + SW_OK;
    }
  }

  /** The pad and the reply of each command that touches the pad. */
  lemma ExecutePad(chip: Chip, s: Card, command: Command, body: Option<Bytes>, now: int, drawn: Bytes)
    ensures var (s', reply) := Execute(chip, s, command, body, now, drawn);
            match command
            case SignWith(slot) => s'.pad == Sign(chip, s, slot, body, now).pad && reply == Sign(chip, s, slot, body, now).reply
            case KeyAgreement => s'.pad == Agree(chip, s, body, now).pad && reply == Agree(chip, s, body, now).reply
            case Wipe => s'.pad == (if BothBlocked(s.pins) then Touch.Apply(s.pad, Touch.Clear) else s.pad)
            case _ => s'.pad == s.pad
  {
    hide Sign, Agree, Generate, Import, Select, MgmtAuth, SetMgmtKey, GetData, PutData, Attest, Metadata, Verify,
         ChangeReference, ResetRetry, Touch.Apply;
  }

  /** What one running command does to the pad. */
  lemma CommandPad(chip: Chip, s: Card, op: CardOp)
    requires Running(s, op).Some?
    ensures var s' := Step(chip, s, op).0;
            match KeySlot(s, op)
            case Some(slot) =>
              && (s'.pad == s.pad || (NeedsTouch(s, slot) && s'.pad == Touch.Apply(s.pad, Ask(s, slot, op.now))))
              && (Released(chip, s, op, slot) && NeedsTouch(s, slot) ==>
                    AnswerTo(s, slot, op.now).Pass? && s'.pad == Touch.Apply(s.pad, Ask(s, slot, op.now)))
            case None => s'.pad == if Wiped(s, op) then Touch.Apply(s.pad, Touch.Clear) else s.pad
  {
    hide Execute, Route, ApduBody, Sign, Agree, Touch.Apply, Touch.Consume, EffectiveTouch, IsVerify, Step;
    RunningDispatches(chip, s, op);
    var body := ApduBody(op.apdu);
    ExecutePad(chip, s, Running(s, op).value, body, op.now, op.drawn);
    match Running(s, op).value
    case SignWith(slot) =>
      var result := SignUsesGate(chip, s, slot, body, op.now);
      UseOfGate(chip, s, slot, Sign(chip, s, slot, body, op.now), op.now, result);
    case KeyAgreement =>
      var result := AgreeUsesGate(chip, s, body, op.now);
      UseOfGate(chip, s, 0x9D, Agree(chip, s, body, op.now), op.now, result);
    case _ =>
  }

  /** What one operation of the card is to its pad, if anything. */
  lemma PadStep(chip: Chip, s: Card, op: CardOp) returns (move: Option<Touch.PadOp>)
    ensures Step(chip, s, op).0.pad == if move.None? then s.pad else Touch.Apply(s.pad, move.value)
    ensures move == Some(Touch.Grant) <==> op == GrantTouch
    ensures forall slot :: Released(chip, s, op, slot) && NeedsTouch(s, slot) ==>
              move == Some(Ask(s, slot, op.now)) && AnswerTo(s, slot, op.now).Pass?
  {
    hide Execute, Dispatch, Touch.Consume, EffectiveTouch;
    move := None;
    if Running(s, op).Some? {
      CommandPad(chip, s, op);
      if KeySlot(s, op).Some? {
        var slot := KeySlot(s, op).value;
        if NeedsTouch(s, slot) && (Released(chip, s, op, slot) || Step(chip, s, op).0.pad != s.pad) {
          move := Some(Ask(s, slot, op.now));
        }
      } else if Wiped(s, op) {
        move := Some(Touch.Clear);
      }
    } else if op.Transmit? {
      NotRunning(chip, s, op);
    } else if op.GrantTouch? {
      move := Some(Touch.Grant);
    } else if op.SetPresent? && !op.present && s.inserted {
      move := Some(Touch.Clear);
    }
  }

  function TouchesGranted(ops: seq<CardOp>): nat {
    if ops == [] then 0 else TouchesGranted(ops[..|ops| - 1]) + (if ops[|ops| - 1] == GrantTouch then 1 else 0)
  }

  /** Operations that answered a result on a slot whose policy asks for a touch each time. */
  function TouchAlwaysOperations(chip: Chip, s: Card, ops: seq<CardOp>): nat {
    if ops == [] then 0
    else
      var n := |ops| - 1;
      var at := Run(chip, s, ops[..n]);
      TouchAlwaysOperations(chip, s, ops[..n]) +
      (if KeySlot(at, ops[n]).Some? && Released(chip, at, ops[n], KeySlot(at, ops[n]).value)
          && EffectiveTouch(at.keys, KeySlot(at, ops[n]).value) == TOUCH_ALWAYS && !at.autoTouch then 1 else 0)
  }

  lemma PadRunOneMore(moves: seq<Touch.PadOp>, move: Touch.PadOp)
    ensures Touch.Run(moves + [move]) == Touch.Apply(Touch.Run(moves), move)
    ensures Touch.Grants(moves + [move]) == Touch.Grants(moves) + (if move == Touch.Grant then 1 else 0)
    ensures Touch.GrantedPasses(moves + [move]) == Touch.GrantedPasses(moves) +
              (if move.Use? && Touch.Consume(Touch.Run(moves), move.slot, move.cached, move.now).1 == Touch.Pass(Touch.Granted) then 1 else 0)
  {
    assert (moves + [move])[..|moves|] == moves;
  }

  /**
   * The card's pad is always where some run of the pad leaves it, with one grant for each touch
   * given to the card; so whatever holds of every run of the pad holds of every run of the card.
   */
  lemma {:induction false} CardPadsAreTouchRuns(chip: Chip, s: Card, ops: seq<CardOp>) returns (moves: seq<Touch.PadOp>)
    requires Initial(s)
    ensures Run(chip, s, ops).pad == Touch.Run(moves) && Touch.Grants(moves) == TouchesGranted(ops)
    ensures TouchAlwaysOperations(chip, s, ops) <= Touch.GrantedPasses(moves)
  {
    hide Step, Touch.Apply, Touch.GrantedAt, KeySlot, EffectiveTouch;
    moves := [];
    if ops != [] {
      var n := |ops| - 1;
      moves := CardPadsAreTouchRuns(chip, s, ops[..n]);
      var at := Run(chip, s, ops[..n]);
      var move := PadStep(chip, at, ops[n]);
      if move.Some? {
        PadRunOneMore(moves, move.value);
        moves := moves + [move.value];
      }
    }
  }

  /** Every operation on a touch-always slot spends a touch of its own: together with those pending they never outnumber the touches given. */
  lemma TouchAlwaysOperationsAreTouched(chip: Chip, s: Card, ops: seq<CardOp>)
    requires Initial(s)
    ensures TouchAlwaysOperations(chip, s, ops) + Run(chip, s, ops).pad.pending <= TouchesGranted(ops)
  {
    var moves := CardPadsAreTouchRuns(chip, s, ops);
    Touch.TouchesAreConserved(moves);
  }

  // --- admin authentication -------------------------------------------------------------

  /** The response phase of management-key authentication, answered right. */
  predicate AdminAccepted(chip: Chip, s: Card, op: CardOp) {
    && Running(s, op) == Some(AuthenticateAdmin) && ApduBody(op.apdu).Some?
    && var body := ApduBody(op.apdu).value;
       && |body| == 12 && body[..4] == [0x7C, 0x0A, 0x82, 0x08] && s.session.pendingWitness.Some?
       && chip.tdesDecrypt(s.mgmtKey, body[4..]) == s.session.pendingWitness.value
  }

  /** Whatever ends a card session: removal, power-down, or a reset. */
  predicate EndsSession(s: Card, op: CardOp) {
    match op
    case SetPresent(present) => !present && s.inserted
    case PowerDown => true
    case EndTransaction(disposition) => Resets(disposition)
    case _ => false
  }

  /** The parts of the card admin authentication is about, after each command. */
  lemma ExecuteAdmin(chip: Chip, s: Card, command: Command, body: Option<Bytes>, now: int, drawn: Bytes)
    ensures var s' := Execute(chip, s, command, body, now, drawn).0;
            && (command.AuthenticateAdmin? ==> s'.session == MgmtAuth(chip, s.mgmtKey, s.session, body).0)
            && (!command.AuthenticateAdmin? ==> s'.session.mgmtAuthenticated == s.session.mgmtAuthenticated)
            && (command.RotateMgmtKey? ==> s'.mgmtKey == SetMgmtKey(s.mgmtKey, s.session.mgmtAuthenticated, body).0)
            && (!command.RotateMgmtKey? && !command.Wipe? ==> s'.mgmtKey == s.mgmtKey)
            && (command.Wipe? && !BothBlocked(s.pins) ==> s' == s)
  {
    hide Sign, Agree, MgmtAuth, SetMgmtKey, GetData, PutData, Attest, Metadata, Verify, ChangeReference, ResetRetry, Generate,
         Import, DefaultMgmtKey, DefaultPins;
    match command
    case SignWith(slot) => SessionsOfSign(chip, s, slot, body, now);
    case KeyAgreement => SessionsOfAgree(chip, s, body, now);
    case _ => VerifyKeepsAdmin(s, body);
  }

  lemma GenerationNeedsAdmin(chip: Chip, s: Card, slot: Byte, body: Option<Bytes>, drawn: Bytes)
    ensures Generate(chip, s, slot, body, drawn).0 != s.keys ==> s.session.mgmtAuthenticated
  {
    hide GenerateFields, Install;
  }

  lemma ImportNeedsAdmin(chip: Chip, s: Card, alg: Byte, slot: Byte, body: Option<Bytes>)
    ensures Import(chip, s, alg, slot, body).0 != s.keys ==> s.session.mgmtAuthenticated
  {
    hide ImportFields, Install;
  }

  lemma AdminCommand(chip: Chip, s: Card, op: CardOp)
    requires Running(s, op).Some?
    ensures var s' := Step(chip, s, op).0;
            && (s'.session.mgmtAuthenticated <==> s.session.mgmtAuthenticated || AdminAccepted(chip, s, op))
            && ((s'.keys != s.keys || s'.mgmtKey != s.mgmtKey) && !Wiped(s, op) ==> s.session.mgmtAuthenticated)
  {
    hide Execute, Route, ApduBody, Generate, Import, IsVerify, Step;
    var command, body := Running(s, op).value, ApduBody(op.apdu);
    RunningDispatches(chip, s, op);
    ExecuteAdmin(chip, s, command, body, op.now, op.drawn);
    ExecuteFrame(chip, s, command, body, op.now, op.drawn);
    match command
    case GenerateKey(slot) =>
      ExecuteOneOf(chip, s, command, body, op.now, op.drawn);
      GenerationNeedsAdmin(chip, s, slot, body, op.drawn);
    case ImportKey(alg, slot) =>
      ExecuteOneOf(chip, s, command, body, op.now, op.drawn);
      ImportNeedsAdmin(chip, s, alg, slot, body);
    case _ =>
  }

  lemma VerifyKeepsAdmin(s: Card, body: Option<Bytes>)
    ensures Verify(s.pins, s.session, body).1.mgmtAuthenticated == s.session.mgmtAuthenticated
    ensures ResetRetry(s.pins, s.session, body).1.mgmtAuthenticated == s.session.mgmtAuthenticated
  {
  }

  lemma SessionsOfSign(chip: Chip, s: Card, slot: Byte, body: Option<Bytes>, now: int)
    ensures Sign(chip, s, slot, body, now).session.mgmtAuthenticated == s.session.mgmtAuthenticated
  {
    hide GaSignRequest, TouchGate;
  }

  lemma SessionsOfAgree(chip: Chip, s: Card, body: Option<Bytes>, now: int)
    ensures Agree(chip, s, body, now).session.mgmtAuthenticated == s.session.mgmtAuthenticated
  {
    hide GaEcdhRequest, TouchGate;
  }

  // --- challenges ---------------------------------------------------------------------------

  /** The request phase: the client asks for a challenge. */
  predicate AsksChallenge(s: Card, op: CardOp) {
    Running(s, op) == Some(AuthenticateAdmin) && ApduBody(op.apdu) == Some([0x7C, 0x02, 0x81, 0x00])
  }

  /** Only the two phases of management-key authentication touch the outstanding challenge. */
  lemma ExecuteChallenge(chip: Chip, s: Card, command: Command, body: Option<Bytes>, now: int, drawn: Bytes)
    ensures var s' := Execute(chip, s, command, body, now, drawn).0;
            s'.session.pendingWitness ==
            if command.AuthenticateAdmin? then MgmtAuth(chip, s.mgmtKey, s.session, body).0.pendingWitness
            else s.session.pendingWitness
  {
    hide Sign, Agree, MgmtAuth, SetMgmtKey, GetData, PutData, Attest, Metadata, Verify, ChangeReference, ResetRetry, Generate,
         Import, DefaultMgmtKey, DefaultPins;
    match command
    case SignWith(slot) => SignKeepsChallenge(chip, s, slot, body, now);
    case KeyAgreement => AgreeKeepsChallenge(chip, s, body, now);
    case _ => PinCommandsKeepChallenge(s, body);
  }

  lemma PinCommandsKeepChallenge(s: Card, body: Option<Bytes>)
    ensures Verify(s.pins, s.session, body).1.pendingWitness == s.session.pendingWitness
    ensures ResetRetry(s.pins, s.session, body).1.pendingWitness == s.session.pendingWitness
  {
  }

  lemma SignKeepsChallenge(chip: Chip, s: Card, slot: Byte, body: Option<Bytes>, now: int)
    ensures Sign(chip, s, slot, body, now).session.pendingWitness == s.session.pendingWitness
  {
    hide GaSignRequest, TouchGate;
  }

  lemma AgreeKeepsChallenge(chip: Chip, s: Card, body: Option<Bytes>, now: int)
    ensures Agree(chip, s, body, now).session.pendingWitness == s.session.pendingWitness
  {
    hide GaEcdhRequest, TouchGate;
  }

  /** A challenge is outstanding only if it was just asked for, or was outstanding and not answered right just now. */
  lemma ChallengeStep(chip: Chip, s: Card, op: CardOp)
    ensures var after, before := Step(chip, s, op).0.session.pendingWitness, s.session.pendingWitness;
            && (AsksChallenge(s, op) ==> after == if before.Some? then before else Some(ZeroWitness()))
            && (!AsksChallenge(s, op) ==> after == before || after.None?)
            && (AdminAccepted(chip, s, op) ==> after.None?)
  {
    hide Execute, Dispatch;
    if Running(s, op).Some? {
      ChallengeCommand(chip, s, op);
    } else if op.Transmit? {
      NotRunning(chip, s, op);
    }
  }

  lemma ChallengeCommand(chip: Chip, s: Card, op: CardOp)
    requires Running(s, op).Some?
    ensures var after, before := Step(chip, s, op).0.session.pendingWitness, s.session.pendingWitness;
            && (AsksChallenge(s, op) ==> after == if before.Some? then before else Some(ZeroWitness()))
            && (!AsksChallenge(s, op) ==> after == before || after.None?)
            && (AdminAccepted(chip, s, op) ==> after.None?)
  {
    hide Execute, Route, ApduBody, IsVerify, Step;
    RunningDispatches(chip, s, op);
    ExecuteChallenge(chip, s, Running(s, op).value, ApduBody(op.apdu), op.now, op.drawn);
  }

  /** A right answer spends its challenge: the command right after it is not a right answer. */
  lemma ChallengeIsSingleUse(chip: Chip, s: Card, op: CardOp, again: CardOp)
    requires AdminAccepted(chip, s, op)
    ensures !AdminAccepted(chip, Step(chip, s, op).0, again)
  {
    hide Step;
    ChallengeStep(chip, s, op);
  }

  predicate AskedBetween(chip: Chip, s: Card, ops: seq<CardOp>, i: nat, k: nat) {
    exists m {:trigger ops[m]} :: i < m < k <= |ops| && AsksChallenge(At(chip, s, ops, m), ops[m])
  }

  lemma {:induction false} OutstandingMeansAsked(chip: Chip, s: Card, ops: seq<CardOp>, i: nat, k: nat)
    requires i < k <= |ops| && AdminAccepted(chip, At(chip, s, ops, i), ops[i])
    ensures At(chip, s, ops, k).session.pendingWitness.Some? ==> AskedBetween(chip, s, ops, i, k)
    decreases k
  {
    hide Step, AdminAccepted, AsksChallenge;
    var n := k - 1;
    assert ops[..k][..n] == ops[..n];
    ChallengeStep(chip, At(chip, s, ops, n), ops[n]);
    if i < n && At(chip, s, ops, k).session.pendingWitness.Some? && !AsksChallenge(At(chip, s, ops, n), ops[n]) {
      OutstandingMeansAsked(chip, s, ops, i, n);
      var m :| i < m < n && AsksChallenge(At(chip, s, ops, m), ops[m]);
      assert i < m < k <= |ops|;
    }
  }

  /** Each right answer spends its challenge: between two of them a challenge was asked for. */
  lemma EachAnswerNeedsAChallenge(chip: Chip, s: Card, ops: seq<CardOp>, i: nat, j: nat)
    requires i < j < |ops|
    requires AdminAccepted(chip, At(chip, s, ops, i), ops[i]) && AdminAccepted(chip, At(chip, s, ops, j), ops[j])
    ensures AskedBetween(chip, s, ops, i, j)
  {
    hide Step, AskedBetween;
    OutstandingMeansAsked(chip, s, ops, i, j);
  }

  /** No challenge other than eight zero bytes was seeded. */
  predicate Unseeded(s: Card) { s.session.pendingWitness in {None, Some(ZeroWitness())} }

  lemma {:induction false} ChallengesAreZero(chip: Chip, s: Card, ops: seq<CardOp>)
    requires Unseeded(s)
    ensures Unseeded(Run(chip, s, ops))
  {
    hide Step;
    if ops != [] {
      ChallengesAreZero(chip, s, ops[..|ops| - 1]);
      ChallengeStep(chip, Run(chip, s, ops[..|ops| - 1]), ops[|ops| - 1]);
    }
  }

  /**
   * But every challenge of an unseeded card is the same eight zero bytes. So a response that was
   * accepted once is accepted again, at any later time while the key is the same, exactly if a
   * challenge is outstanding.
   */
  lemma ReplayIsAcceptedIffOutstanding(chip: Chip, s: Card, ops: seq<CardOp>, i: nat, again: CardOp)
    requires Unseeded(s) && i < |ops| && AdminAccepted(chip, At(chip, s, ops, i), ops[i])
    requires var t := Run(chip, s, ops);
             && t.mgmtKey == At(chip, s, ops, i).mgmtKey
             && Running(t, again) == Some(AuthenticateAdmin) && ApduBody(again.apdu) == ApduBody(ops[i].apdu)
    ensures AdminAccepted(chip, Run(chip, s, ops), again) <==> Run(chip, s, ops).session.pendingWitness.Some?
  {
    hide Step, Route, ApduBody;
    ChallengesAreZero(chip, s, ops);
    ChallengesAreZero(chip, s, ops[..i]);
  }

  /** Asking again is enough: the response that was just accepted is accepted once more. */
  lemma SameResponseIsAcceptedAgain(chip: Chip, s: Card, answer: CardOp, ask: CardOp, again: CardOp)
    requires Unseeded(s) && AdminAccepted(chip, s, answer) && AsksChallenge(Step(chip, s, answer).0, ask)
    requires var t := Step(chip, Step(chip, s, answer).0, ask).0;
             Running(t, again) == Some(AuthenticateAdmin) && ApduBody(again.apdu) == ApduBody(answer.apdu)
    ensures AdminAccepted(chip, Step(chip, Step(chip, s, answer).0, ask).0, again)
  {
    hide Execute, Route, ApduBody, Step, IsVerify;
    ChallengeStep(chip, s, answer);
    ChallengeStep(chip, Step(chip, s, answer).0, ask);
    AnswerKeepsTheKey(chip, s, answer);
    AnswerKeepsTheKey(chip, Step(chip, s, answer).0, ask);
  }

  lemma AnswerKeepsTheKey(chip: Chip, s: Card, op: CardOp)
    requires Running(s, op) == Some(AuthenticateAdmin)
    ensures Step(chip, s, op).0.mgmtKey == s.mgmtKey
  {
    hide Execute, Route, ApduBody, Step, IsVerify;
    RunningDispatches(chip, s, op);
    ExecuteAdmin(chip, s, AuthenticateAdmin, ApduBody(op.apdu), op.now, op.drawn);
  }

  // --- who is authenticated -------------------------------------------------------------------

  lemma AdminStep(chip: Chip, s: Card, op: CardOp)
    ensures var s' := Step(chip, s, op).0;
            && (s'.session.mgmtAuthenticated <==>
                  (s.session.mgmtAuthenticated || AdminAccepted(chip, s, op)) && !EndsSession(s, op))
            && ((s'.keys != s.keys || s'.mgmtKey != s.mgmtKey) && !Wiped(s, op) && !op.SeedKey? ==> s.session.mgmtAuthenticated)
  {
    hide Execute, Dispatch;
    if Running(s, op).Some? {
      AdminCommand(chip, s, op);
    } else if op.Transmit? {
      NotRunning(chip, s, op);
    }
  }

  /** Operation `j` answered the challenge and nothing since has ended the session. */
  predicate AdminSince(chip: Chip, s: Card, ops: seq<CardOp>, j: nat) {
    && j < |ops| && AdminAccepted(chip, At(chip, s, ops, j), ops[j])
    && forall m {:trigger ops[m]} :: j < m < |ops| ==> !EndsSession(At(chip, s, ops, m), ops[m])
  }

  lemma AdminSinceLasts(chip: Chip, s: Card, ops: seq<CardOp>, j: nat)
    requires ops != [] && AdminSince(chip, s, ops[..|ops| - 1], j)
    requires !EndsSession(Run(chip, s, ops[..|ops| - 1]), ops[|ops| - 1])
    ensures AdminSince(chip, s, ops, j)
  {
    hide Step, AdminAccepted, EndsSession, Run;
    var n := |ops| - 1;
    forall m | 0 <= m < n ensures ops[..n][m] == ops[m] && ops[..n][..m] == ops[..m] {}
    forall m | j < m < |ops| ensures !EndsSession(At(chip, s, ops, m), ops[m]) {
      if m < n { assert !EndsSession(At(chip, s, ops[..n], m), ops[..n][m]); }
    }
  }

  /** A card is admin-authenticated exactly if the challenge was answered right in the present session. */
  lemma {:induction false} AuthenticatedIffAnsweredThisSession(chip: Chip, s: Card, ops: seq<CardOp>)
    requires Initial(s)
    ensures Run(chip, s, ops).session.mgmtAuthenticated <==> exists j: nat :: AdminSince(chip, s, ops, j)
  {
    hide Step, AdminAccepted, EndsSession;
    if ops != [] {
      var n := |ops| - 1;
      var at := Run(chip, s, ops[..n]);
      AuthenticatedIffAnsweredThisSession(chip, s, ops[..n]);
      AdminStep(chip, at, ops[n]);
      if Run(chip, s, ops).session.mgmtAuthenticated {
        if AdminAccepted(chip, at, ops[n]) {
          assert AdminSince(chip, s, ops, n);
        } else {
          var j: nat :| AdminSince(chip, s, ops[..n], j);
          AdminSinceLasts(chip, s, ops, j);
        }
      } else {
        forall j: nat ensures !AdminSince(chip, s, ops, j) { NotAdminSince(chip, s, ops, ops[..n], j); }
      }
    }
  }

  lemma NotAdminSince(chip: Chip, s: Card, ops: seq<CardOp>, before: seq<CardOp>, j: nat)
    requires ops != [] && before == ops[..|ops| - 1] && !Run(chip, s, ops).session.mgmtAuthenticated
    requires forall i: nat :: AdminSince(chip, s, before, i) ==> Run(chip, s, before).session.mgmtAuthenticated
    ensures !AdminSince(chip, s, ops, j)
  {
    hide Step, AdminAccepted, EndsSession;
    var n := |ops| - 1;
    AdminStep(chip, Run(chip, s, ops[..n]), ops[n]);
    if AdminSince(chip, s, ops, j) {
      AnswerEndsNothing(chip, At(chip, s, ops, n), ops[n]);
      if j < n { AdminSincePrefix(chip, s, ops, j); }
      assert false;
    }
  }

  lemma AnswerEndsNothing(chip: Chip, s: Card, op: CardOp)
    ensures AdminAccepted(chip, s, op) ==> !EndsSession(s, op)
  {
  }

  lemma AdminSincePrefix(chip: Chip, s: Card, ops: seq<CardOp>, j: nat)
    requires AdminSince(chip, s, ops, j) && j < |ops| - 1
    ensures AdminSince(chip, s, ops[..|ops| - 1], j) && !EndsSession(At(chip, s, ops, |ops| - 1), ops[|ops| - 1])
  {
    hide Step, AdminAccepted, EndsSession, Run;
    var n := |ops| - 1;
    forall m | 0 <= m < n ensures ops[..n][m] == ops[m] && ops[..n][..m] == ops[..m] {}
    assert !EndsSession(At(chip, s, ops, n), ops[n]);
  }

  /** Keys and the management key change, seeding and factory reset aside, only for whoever answered the challenge this session. */
  lemma KeysChangeOnlyForAdmin(chip: Chip, s: Card, ops: seq<CardOp>, k: nat)
    requires Initial(s) && k < |ops| && !ops[k].SeedKey? && !Wiped(At(chip, s, ops, k), ops[k])
    requires var before, after := At(chip, s, ops, k), Step(chip, At(chip, s, ops, k), ops[k]).0;
             after.keys != before.keys || after.mgmtKey != before.mgmtKey
    ensures exists j: nat :: AdminSince(chip, s, ops[..k], j)
  {
    hide Step, AdminAccepted, EndsSession, Wiped;
    AdminStep(chip, At(chip, s, ops, k), ops[k]);
    AuthenticatedIffAnsweredThisSession(chip, s, ops[..k]);
  }
}
