/**
 * Waiting for a simulated touch (crates/fibby/src/server.rs, with touch.rs): the
 * card is unlocked between attempts, and anyone may use it meanwhile.
 */
module TouchWait {
  import opened Base
  import opened Card
  import V = VirtualCard
  import CardHistory
  import ApduParse
  import Touch

  /** How often a waiting connection checks that its client is still there, in milliseconds. */
  const CLIENT_GONE_POLL: int := 200

  // --- the generation only grows -------------------------------------------------

  lemma GateKeepsGeneration(s: Card, slot: Byte, now: int)
    ensures s.pad.generation <= TouchGate(s, slot, now).0.generation
  {
  }

  lemma CommandKeepsGeneration(chip: Chip, s: Card, command: Command, body: Option<Bytes>, now: int, drawn: Bytes)
    ensures s.pad.generation <= Execute(chip, s, command, body, now, drawn).0.pad.generation
  {
    hide TouchGate, Verify, ChangeReference, ResetRetry, MgmtAuth, SetMgmtKey, Select, PutData, Generate, Import,
         GetData, Attest, Metadata;
    match command
    case SignWith(slot) => GateKeepsGeneration(s, slot, now);
    case KeyAgreement => GateKeepsGeneration(s, 0x9D, now);
    case _ =>
  }

  lemma StepKeepsGeneration(chip: Chip, s: Card, op: CardOp)
    ensures s.pad.generation <= Step(chip, s, op).0.pad.generation
  {
    hide Execute;
    if CardHistory.Running(s, op).Some? {
      CardHistory.RunningDispatches(chip, s, op);
      CommandKeepsGeneration(chip, s, CardHistory.Running(s, op).value, ApduParse.ApduBody(op.apdu), op.now, op.drawn);
    } else if op.Transmit? {
      CardHistory.NotRunning(chip, s, op);
    }
  }

  lemma {:induction false} RunKeepsGeneration(chip: Chip, s: Card, ops: seq<CardOp>)
    ensures s.pad.generation <= Run(chip, s, ops).pad.generation
  {
    hide Step;
    if ops != [] {
      RunKeepsGeneration(chip, s, ops[..|ops| - 1]);
      StepKeepsGeneration(chip, Run(chip, s, ops[..|ops| - 1]), ops[|ops| - 1]);
    }
  }

  // --- the world around a waiting connection -----------------------------------------

  /** From `s`, the operations `log` has gained since it was `before` lead to `s'`. */
  predicate Leads(chip: Chip, s: Card, before: seq<CardOp>, s': Card, log: seq<CardOp>) {
    before <= log && s' == Run(chip, s, log[|before|..])
  }

  lemma LeadsChains(chip: Chip, s: Card, start: seq<CardOp>, s1: Card, middle: seq<CardOp>, s2: Card, end: seq<CardOp>)
    requires Leads(chip, s, start, s1, middle) && Leads(chip, s1, middle, s2, end)
    ensures Leads(chip, s, start, s2, end)
    ensures s.pad.generation <= s1.pad.generation <= s2.pad.generation
  {
    hide Step;
    assert end[|start|..] == middle[|start|..] + end[|middle|..];
    RunAppends(chip, s, middle[|start|..], end[|middle|..]);
    RunKeepsGeneration(chip, s, middle[|start|..]);
    RunKeepsGeneration(chip, s1, end[|middle|..]);
  }

  /** One stretch in which this connection holds no lock: what everyone else does to the card, and how long it takes. */
  datatype Turn = Turn(ops: seq<CardOp>, elapsed: nat, hangsUp: bool)

  /**
   * One look a waiting connection takes between two parkings: when, how much of the time until then
   * it had slept on its own account, whether the pad had moved, and whether its client was gone.
   */
  datatype Look = Look(at: int, slept: int, moved: bool, hungUp: bool)

  /** The card and its users. Once the schedule is over nobody else acts and only time passes. */
  class World {
    const card: V.VirtualCard
    var schedule: seq<Turn>
    var now: int
    /** The client that sent the APDU has hung up, and the last check for that saw it. */
    var gone: bool
    ghost var sawGone: bool
    /** Everything the others have done to the card. */
    ghost var others: seq<CardOp>
    /** The time this connection has slept, not counting what the others' turns took. */
    ghost var slept: int
    ghost var looks: seq<Look>

    constructor (card: V.VirtualCard, schedule: seq<Turn>, now: int)
      ensures this.card == card && this.schedule == schedule && this.now == now && !gone && !sawGone && others == []
      ensures slept == 0 && looks == []
    {
      this.card, this.schedule, this.now := card, schedule, now;
      gone, sawGone, others, slept, looks := false, false, [], 0, [];
    }

    ghost predicate Apart()
      reads this
    {
      this as object != card as object && this as object != card.touch as object
    }

    /** Since the calling method began, only the others have used the card, and each time they did they took a turn. */
    twostate predicate OnlyOthersActed()
      reads this, card, card.touch
    {
      && Leads(card.chip, old(card.State()), old(others), card.State(), others)
      && |schedule| <= old(|schedule|) && old(now) <= now
      && (|schedule| == old(|schedule|) ==> card.State() == old(card.State()))
    }

    /** Others get the card before this connection takes a lock again. */
    method Unlocked()
      requires Apart()
      modifies this, card, card.touch
      ensures OnlyOthersActed() && sawGone == old(sawGone) && (old(gone) ==> gone)
      ensures looks == old(looks) && slept == old(slept)
      ensures old(schedule) != [] ==> |schedule| < |old(schedule)|
    {
      if schedule != [] {
        var turn := schedule[0];
        schedule, now, gone := schedule[1..], now + turn.elapsed, gone || turn.hangsUp;
        others := others + turn.ops;
        card.PerformAll(turn.ops);
      }
    }

    method ClientGone() returns (answer: bool)
      modifies `sawGone
      ensures answer == gone == sawGone
    {
      sawGone := gone;
      return gone;
    }

    /**
     * `wait_for_change`: true exactly when the pad's generation is no longer `seen`,
     * and false only once `sliceEnd` has passed.
     */
    method WaitForChange(seen: nat, sliceEnd: int) returns (changed: bool)
      requires Apart()
      modifies this, card, card.touch
      ensures OnlyOthersActed() && sawGone == old(sawGone) && (old(gone) ==> gone)
      ensures looks == old(looks) && old(slept) <= slept <= old(slept) + (if old(now) < sliceEnd then sliceEnd - old(now) else 0)
      ensures changed <==> card.touch.generation != seen
      ensures !changed ==> sliceEnd <= now
    {
      hide Run;
      assert Leads(card.chip, card.State(), others, card.State(), others) by { NothingLeads(card.chip, card.State(), others); }
      hide Leads;
      while true
        invariant Apart() && OnlyOthersActed() && sawGone == old(sawGone) && (old(gone) ==> gone)
        invariant looks == old(looks)
        invariant old(slept) <= slept && (slept == old(slept) || (sliceEnd <= now && slept <= old(slept) + sliceEnd - old(now)))
        decreases |schedule|, if now < sliceEnd then 1 else 0
      {
        if card.touch.generation != seen { return true; }
        if sliceEnd <= now { return false; }
        if schedule != [] {
          label parking:
          Unlocked();
          LeadsChains(card.chip, old(card.State()), old(others), old@parking(card.State()), old@parking(others), card.State(), others);
        } else {
          slept := slept + sliceEnd - now;
          now := sliceEnd;
        }
      }
    }
  }

  lemma NothingLeads(chip: Chip, s: Card, log: seq<CardOp>)
    ensures Leads(chip, s, log, s, log)
  {
  }

  /** Why a parked connection stopped waiting: the pad moved, the deadline passed, or its client left. */
  datatype Woken = Moved | Expired | HungUp

  datatype Outcome = Answered | TimedOut | Abandoned

  /** The last look of a wait sees why it ends; every look before it saw the pad unmoved, the client there and the deadline ahead. */
  predicate LooksUntil(looks: seq<Look>, deadline: int, woken: Woken) {
    && looks != []
    && (forall i :: 0 <= i < |looks| - 1 ==> !looks[i].hungUp && !looks[i].moved && looks[i].at < deadline)
    && var last := looks[|looks| - 1];
       match woken
       case HungUp => last.hungUp
       case Moved => !last.hungUp && last.moved
       case Expired => !last.hungUp && !last.moved && deadline <= last.at
  }

  /** Where the next look counts its sleep from. */
  function LastSlept(looks: seq<Look>, start: int): int { if looks == [] then start else looks[|looks| - 1].slept }

  /** From `start` on, the connection never sleeps longer than the poll without looking. */
  predicate LooksOften(looks: seq<Look>, start: int) {
    looks == [] ||
    var before := looks[..|looks| - 1];
    LooksOften(before, start) && 0 <= looks[|looks| - 1].slept - LastSlept(before, start) <= 200
  }

  lemma {:induction false} LooksOftenJoins(first: seq<Look>, start: int, second: seq<Look>)
    requires LooksOften(first, start) && LooksOften(second, LastSlept(first, start))
    ensures LooksOften(first + second, start) && LastSlept(first + second, start) == LastSlept(second, LastSlept(first, start))
  {
    if second == [] {
      assert first + second == first;
    } else {
      assert (first + second)[..|first + second| - 1] == first + second[..|second| - 1];
      LooksOftenJoins(first, start, second[..|second| - 1]);
    }
  }

  /** The looks of a wait that goes on. */
  predicate Goes(looks: seq<Look>, start: int, deadline: int) {
    && LooksOften(looks, start)
    && forall i :: 0 <= i < |looks| ==> !looks[i].hungUp && !looks[i].moved && looks[i].at < deadline
  }

  lemma NextLook(looks: seq<Look>, look: Look, start: int, deadline: int)
    requires Goes(looks, start, deadline)
    requires 0 <= look.slept - LastSlept(looks, start) <= 200
    ensures var all := looks + [look];
            && LooksOften(all, start) && LastSlept(all, start) == look.slept
            && (look.hungUp ==> LooksUntil(all, deadline, HungUp))
            && (!look.hungUp && look.moved ==> LooksUntil(all, deadline, Moved))
            && (!look.hungUp && !look.moved && deadline <= look.at ==> LooksUntil(all, deadline, Expired))
            && (!look.hungUp && !look.moved && look.at < deadline ==> Goes(all, start, deadline))
  {
    assert (looks + [look])[..|looks|] == looks;
  }

  /** How often a wait ended because the pad had moved, its client still there. */
  function Moves(looks: seq<Look>): nat {
    if looks == [] then 0
    else Moves(looks[..|looks| - 1]) + (if looks[|looks| - 1].moved && !looks[|looks| - 1].hungUp then 1 else 0)
  }

  lemma {:induction false} MovesJoin(first: seq<Look>, second: seq<Look>)
    ensures Moves(first + second) == Moves(first) + Moves(second)
  {
    if second == [] {
      assert first + second == first;
    } else {
      assert (first + second)[..|first + second| - 1] == first + second[..|second| - 1];
      MovesJoin(first, second[..|second| - 1]);
    }
  }

  lemma {:induction false} NoMoves(looks: seq<Look>)
    requires forall i :: 0 <= i < |looks| ==> !looks[i].moved
    ensures Moves(looks) == 0
  {
    if looks != [] { NoMoves(looks[..|looks| - 1]); }
  }

  /**
   * All looks of a transmit whose first attempt was at `start`: it goes on waiting at a look exactly
   * if the client is there, the pad has not moved and `timeout` has not passed since the first
   * attempt; it tries again exactly at a look that sees the pad moved; it ends at the last look
   * unless it is answered.
   */
  predicate Waited(looks: seq<Look>, start: int, timeout: nat, outcome: Outcome, attempts: nat) {
    && attempts == 1 + Moves(looks)
    && (forall i :: 0 <= i < |looks| ==> (looks[i].hungUp <==> outcome.Abandoned? && i == |looks| - 1))
    && (forall i :: 0 <= i < |looks| && !looks[i].hungUp && !looks[i].moved ==>
          (start + timeout <= looks[i].at <==> outcome.TimedOut? && i == |looks| - 1))
    && (outcome.Answered? ==> looks == [] || looks[|looks| - 1].moved)
    && (outcome.TimedOut? ==> looks != [] && !looks[|looks| - 1].moved)
    && (outcome.Abandoned? ==> looks != [])
  }

  /** One more wait, after waits that all ended with the pad moving. */
  lemma OneMoreWait(before: seq<Look>, more: seq<Look>, start: int, timeout: nat, attempts: nat, woken: Woken)
    requires Waited(before, start, timeout, Answered, attempts) && LooksUntil(more, start + timeout, woken)
    ensures woken.Moved? ==> Waited(before + more, start, timeout, Answered, attempts + 1)
    ensures woken.Expired? ==> Waited(before + more, start, timeout, TimedOut, attempts)
    ensures woken.HungUp? ==> Waited(before + more, start, timeout, Abandoned, attempts)
  {
    hide Moves;
    var looks, n := before + more, |more| - 1;
    MovesJoin(before, more);
    NoMoves(more[..n]);
    MovesJoin(more[..n], [more[n]]);
    assert more == more[..n] + [more[n]];
    OneLook(more[n]);
    forall i | 0 <= i < |looks|
      ensures looks[i] == if i < |before| then before[i] else more[i - |before|]
    {
    }
  }

  lemma OneLook(look: Look)
    ensures Moves([look]) == if look.moved && !look.hungUp then 1 else 0
  {
    assert [look][..0] == [];
  }

  /** Between two attempts: park until the pad moves, the client hangs up or time runs out. */
  method AwaitTouch(world: World, seen: nat, deadline: int) returns (woken: Woken, ghost told: seq<Look>)
    requires world.Apart() && world.card.touch.generation == seen
    modifies world, world.card, world.card.touch
    ensures world.OnlyOthersActed()
    ensures match woken
      case Moved => !world.sawGone && seen < world.card.touch.generation && |world.schedule| < old(|world.schedule|)
      case Expired => !world.sawGone && deadline <= world.now
      case HungUp => world.sawGone && world.gone
    ensures world.looks == old(world.looks) + told && LooksUntil(told, deadline, woken)
    ensures LooksOften(told, old(world.slept)) && LastSlept(told, old(world.slept)) == world.slept
  {
    hide Run, Goes, LooksOften, LooksUntil, LastSlept;
    ghost var chip, start, log, slept := world.card.chip, world.card.State(), world.others, world.slept;
    NothingLeads(chip, start, log);
    hide Leads;
    told := [];
    NoLooks(slept, deadline);
    while true
      invariant world.Apart() && world.OnlyOthersActed() && seen <= world.card.touch.generation
      invariant world.looks == old(world.looks) + told && Goes(told, slept, deadline) && LastSlept(told, slept) == world.slept
      decreases |world.schedule|, deadline - world.now
    {
      label unlocking:
      world.Unlocked();
      LeadsChains(chip, start, log, old@unlocking(world.card.State()), old@unlocking(world.others), world.card.State(), world.others);
      label parking:
      var sliceEnd := if deadline < world.now + CLIENT_GONE_POLL then deadline else world.now + CLIENT_GONE_POLL;
      var changed := world.WaitForChange(seen, sliceEnd);
      LeadsChains(chip, start, log, old@parking(world.card.State()), old@parking(world.others), world.card.State(), world.others);
      var hungUp := world.ClientGone();
      ghost var look := Look(world.now, world.slept, changed, hungUp);
      world.looks := world.looks + [look];
      NextLook(told, look, slept, deadline);
      told := told + [look];
      if hungUp { return HungUp, told; }
      if changed { return Moved, told; }
      if deadline <= world.now { return Expired, told; }
    }
  }

  lemma NoLooks(start: int, deadline: int)
    ensures Goes([], start, deadline) && LastSlept([], start) == start
  {
  }

  /**
   * Attempt, park, wake, check. Whatever the others do meanwhile, the card and the
   * answer are those of one command, run at the last attempt, or of none at all.
   */
  method TransmitWaitingForTouch(world: World, apdu: Bytes, timeout: nat, drawn: Bytes)
      returns (response: Bytes, outcome: Outcome, attempts: nat, ghost told: seq<Look>)
    requires world.Apart() && !world.sawGone
    modifies world, world.card, world.card.touch
    ensures old(world.others) <= world.others
    ensures var before := Run(world.card.chip, old(world.card.State()), world.others[old(|world.others|)..]);
            && (outcome.Answered? ==>
                  (world.card.State(), Reply(response, None)) == Step(world.card.chip, before, Transmit(apdu, world.now, drawn)))
            && (!outcome.Answered? ==> world.card.State() == before && response == [0x69, 0x82])
            && 1 <= attempts <= 1 + before.pad.generation - old(world.card.touch.generation)
    ensures world.looks == old(world.looks) + told
    ensures Waited(told, old(world.now), timeout, outcome, attempts) && LooksOften(told, old(world.slept))
    ensures outcome.TimedOut? ==> old(world.now) + timeout <= world.now
    ensures outcome.Abandoned? <==> world.sawGone
    ensures outcome.Abandoned? ==> world.gone
  {
    hide Step, Run;
    var card := world.card;
    ghost var before, log := card.State(), world.others;
    ghost var start, slept, looked := world.now, world.slept, world.looks;
    told := [];
    NothingLeads(card.chip, before, log);
    NotYetWaited(start, timeout, slept);
    hide Waited, LooksOften, LooksUntil, LastSlept;
    var deadline: Option<int> := None;
    attempts := 0;
    while true
      invariant world.Apart() && world.OnlyOthersActed() && !world.sawGone
      invariant if attempts == 0 then deadline.None? && world.now == old(world.now) else deadline == Some(start + timeout)
      invariant world.looks == looked + told && Waited(told, start, timeout, Answered, attempts + 1)
      invariant LooksOften(told, slept) && LastSlept(told, slept) == world.slept
      invariant attempts <= card.touch.generation - old(card.touch.generation)
      decreases |world.schedule|
    {
      label attempting:
      var reply := card.TransmitOrAwaitTouch(apdu, world.now, drawn);
      attempts := attempts + 1;
      if reply.awaiting.None? { return reply.bytes, Answered, attempts, told; }
      CardHistory.BlockedAttemptChangesNothing(card.chip, old@attempting(card.State()), Transmit(apdu, world.now, drawn));
      if deadline.None? { deadline := Some(world.now + timeout); }
      label parking:
      ghost var more;
      var woken;
      woken, more := AwaitTouch(world, reply.awaiting.value, deadline.value);
      LeadsChains(card.chip, before, log, old@parking(card.State()), old@parking(world.others), card.State(), world.others);
      OneMoreWait(told, more, start, timeout, attempts, woken);
      LooksOftenJoins(told, slept, more);
      told := told + more;
      if woken == HungUp { return reply.bytes, Abandoned, attempts, told; }
      if woken == Expired { return reply.bytes, TimedOut, attempts, told; }
      label retrying:
      world.Unlocked();
      LeadsChains(card.chip, before, log, old@retrying(card.State()), old@retrying(world.others), card.State(), world.others);
      LeadsChains(card.chip, old@attempting(card.State()), old@attempting(world.others), old@retrying(card.State()), old@retrying(world.others), card.State(), world.others);
    }
  }

  lemma NotYetWaited(start: int, timeout: nat, slept: int)
    ensures Waited([], start, timeout, Answered, 1) && LooksOften([], slept) && LastSlept([], slept) == slept
  {
  }
}
