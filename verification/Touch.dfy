/** The simulated touch pad of one card (crates/fibby/src/touch.rs). */
module Touch {
  import opened Base

  /** How long one touch keeps satisfying a `cached` slot, in milliseconds. */
  const CACHE_WINDOW: int := 15000

  /** What the pad's lock protects. `cachedUntil[slot]` is the end of that slot's window. */
  datatype Pad = Pad(pending: nat, cachedUntil: map<Byte, int>, generation: nat)

  datatype TouchPass = Granted | Cached

  datatype Answer = Pass(how: TouchPass) | Blocked(seen: nat)

  const FRESH_PAD: Pad := Pad(0, map[], 0)

  predicate WindowOpen(pad: Pad, slot: Byte, now: int) {
    slot in pad.cachedUntil && now < pad.cachedUntil[slot]
  }

  function Consume(pad: Pad, slot: Byte, cached: bool, now: int): (Pad, Answer) {
    if cached && WindowOpen(pad, slot, now) then (pad, Pass(Cached))
    else if pad.pending == 0 then (pad, Blocked(pad.generation))
    else
      var spent := pad.(pending := pad.pending - 1);
      if cached then
        (spent.(cachedUntil := pad.cachedUntil[slot := now + CACHE_WINDOW], generation := pad.generation + 1),
         Pass(Granted))
      else (spent, Pass(Granted))
  }

  /** The pad object: one mutex-protected state, changed in place. */
  class TouchPad {
    var pending: nat
    var cachedUntil: map<Byte, int>
    var generation: nat

    function State(): Pad
      reads this
    {
      Pad(pending, cachedUntil, generation)
    }

    constructor ()
      ensures State() == FRESH_PAD
    {
      pending, cachedUntil, generation := 0, map[], 0;
    }

    method Grant() returns (nowPending: nat)
      modifies this
      ensures State() == Apply(old(State()), PadOp.Grant)
      ensures nowPending == State().pending
    {
      pending := pending + 1;
      generation := generation + 1;
      nowPending := pending;
    }

    method TryConsume(slot: Byte, cachedPolicy: bool, now: int) returns (answer: Answer)
      modifies this
      ensures (State(), answer) == Consume(old(State()), slot, cachedPolicy, now)
    {
      if cachedPolicy && slot in cachedUntil && now < cachedUntil[slot] {
        return Pass(Cached);
      }
      if pending == 0 {
        return Blocked(generation);
      }
      pending := pending - 1;
      if cachedPolicy {
        cachedUntil := cachedUntil[slot := now + CACHE_WINDOW];
        generation := generation + 1;
      }
      return Pass(Granted);
    }

    /** Pending grants are kept: a grant is the operator's finger, not card state. */
    method ClearCache()
      modifies this
      ensures State() == Apply(old(State()), Clear)
    {
      cachedUntil := map[];
    }
  }

  // --- runs of the pad ------------------------------------------------------

  /** Every way the pad changes, in the order the lock serialises them. */
  datatype PadOp = Grant | Use(slot: Byte, cached: bool, now: int) | Clear

  function Apply(pad: Pad, op: PadOp): Pad {
    match op
    case Grant => pad.(pending := pad.pending + 1, generation := pad.generation + 1)
    case Use(slot, cached, now) => Consume(pad, slot, cached, now).0
    case Clear => pad.(cachedUntil := map[])
  }

  function Run(ops: seq<PadOp>): Pad {
    if ops == [] then FRESH_PAD else Apply(Run(ops[..|ops| - 1]), ops[|ops| - 1])
  }

  /** The answer the `k`-th operation of a run got. */
  function AnswerAt(ops: seq<PadOp>, k: nat): Answer
    requires k < |ops| && ops[k].Use?
  {
    Consume(Run(ops[..k]), ops[k].slot, ops[k].cached, ops[k].now).1
  }

  predicate GrantedAt(ops: seq<PadOp>, k: nat) {
    k < |ops| && ops[k].Use? && AnswerAt(ops, k) == Pass(Granted)
  }

  /** The `k`-th operation opened a `cached` window for `slot`. */
  predicate OpensAt(ops: seq<PadOp>, k: nat, slot: Byte) {
    GrantedAt(ops, k) && ops[k].cached && ops[k].slot == slot
  }

  /** The window the run left for `slot` is the one operation `j` opened. */
  predicate WindowFrom(ops: seq<PadOp>, j: nat, slot: Byte) {
    OpensAt(ops, j, slot) && forall m :: j < m < |ops| ==> ops[m] != Clear && !OpensAt(ops, m, slot)
  }

  function Grants(ops: seq<PadOp>): nat {
    if ops == [] then 0
    else Grants(ops[..|ops| - 1]) + (if ops[|ops| - 1] == Grant then 1 else 0)
  }

  function GrantedPasses(ops: seq<PadOp>): nat {
    if ops == [] then 0
    else GrantedPasses(ops[..|ops| - 1]) + (if GrantedAt(ops, |ops| - 1) then 1 else 0)
  }

  function Openings(ops: seq<PadOp>): nat {
    if ops == [] then 0
    else
      Openings(ops[..|ops| - 1]) +
      (if GrantedAt(ops, |ops| - 1) && ops[|ops| - 1].cached then 1 else 0)
  }

  lemma PrefixAnswers(ops: seq<PadOp>, n: nat, k: nat)
    requires n <= |ops| && k < n
    ensures GrantedAt(ops[..n], k) == GrantedAt(ops, k)
    ensures ops[k].Use? ==> AnswerAt(ops[..n], k) == AnswerAt(ops, k)
  {
    assert ops[..n][..k] == ops[..k];
  }

  /** No touch is lost and none is spent twice; the generation counts exactly the wake-ups. */
  lemma {:induction false} TouchesAreConserved(ops: seq<PadOp>)
    ensures Grants(ops) == Run(ops).pending + GrantedPasses(ops)
    ensures Run(ops).generation == Grants(ops) + Openings(ops)
    ensures Openings(ops) <= GrantedPasses(ops)
  {
    if ops != [] {
      TouchesAreConserved(ops[..|ops| - 1]);
    }
  }

  /** The counters are a u32 and a u64: with fewer than 2^32 grants neither overflows. */
  lemma CountersFitTheirWidths(ops: seq<PadOp>)
    requires Grants(ops) < TWO_32
    ensures Run(ops).pending < TWO_32 && Run(ops).generation < TWO_64
  {
    TouchesAreConserved(ops);
  }

  /** How one more operation changes which window is current. */
  lemma WindowStep(ops: seq<PadOp>, j: nat, slot: Byte)
    requires ops != []
    ensures WindowFrom(ops, j, slot) <==>
            if j == |ops| - 1 then OpensAt(ops, j, slot)
            else WindowFrom(ops[..|ops| - 1], j, slot) && ops[|ops| - 1] != Clear && !OpensAt(ops, |ops| - 1, slot)
  {
    var last := |ops| - 1;
    forall k: nat | k < last ensures OpensAt(ops[..last], k, slot) == OpensAt(ops, k, slot) {
      PrefixAnswers(ops, last, k);
    }
  }

  /** Where the run's window for `slot` came from, as one more operation is applied. */
  lemma WindowEnd(ops: seq<PadOp>, slot: Byte)
    requires ops != []
    ensures var last := |ops| - 1; var before := Run(ops[..last]).cachedUntil; var after := Run(ops).cachedUntil;
            if OpensAt(ops, last, slot) then slot in after && after[slot] == ops[last].now + 15000
            else if ops[last] == Clear then slot !in after
            else (slot in after <==> slot in before) && (slot in after ==> after[slot] == before[slot])
  {
  }

  /** The window kept for `slot` is the newest granted `cached` touch since the last clear. */
  lemma {:induction false} WindowHistory(ops: seq<PadOp>, slot: Byte) returns (j: nat)
    ensures slot in Run(ops).cachedUntil ==>
              WindowFrom(ops, j, slot) && Run(ops).cachedUntil[slot] == ops[j].now + 15000
    ensures slot !in Run(ops).cachedUntil ==> forall i: nat :: !WindowFrom(ops, i, slot)
  {
    if ops == [] {
      j := 0;
    } else {
      var last := |ops| - 1;
      j := WindowHistory(ops[..last], slot);
      WindowEnd(ops, slot);
      if OpensAt(ops, last, slot) { j := last; }
      WindowStep(ops, j, slot);
      forall i: nat { WindowStep(ops, i, slot); }
    }
  }

  /** At most one operation can have opened the current window. */
  lemma WindowIsUnique(ops: seq<PadOp>, i: nat, j: nat, slot: Byte)
    requires WindowFrom(ops, i, slot) && WindowFrom(ops, j, slot)
    ensures i == j
  {
  }

  /**
   * An operation rides the cache exactly when its policy is `cached` and a granted
   * touch on the same slot, with no clear and no newer touch in between, is less
   * than the window old.
   */
  lemma CachedPassIffRecentTouch(ops: seq<PadOp>, k: nat)
    requires k < |ops| && ops[k].Use?
    ensures AnswerAt(ops, k) == Pass(Cached) <==>
            ops[k].cached &&
            exists j: nat :: WindowFrom(ops[..k], j, ops[k].slot) && ops[k].now < ops[j].now + 15000
  {
    var before := ops[..k];
    var j := WindowHistory(before, ops[k].slot);
    if AnswerAt(ops, k) == Pass(Cached) {
      assert WindowFrom(before, j, ops[k].slot) && before[j] == ops[j];
    }
    if i: nat :| WindowFrom(before, i, ops[k].slot) && ops[k].now < ops[i].now + 15000 {
      WindowIsUnique(before, i, j, ops[k].slot);
      assert before[j] == ops[j];
    }
  }

  /**
   * While nothing has bumped the generation since an operation was blocked, the same
   * operation at any later time is blocked again and changes nothing: a waiter that
   * sleeps until the generation moves misses no touch.
   */
  lemma {:induction false} NoLostWakeUp(ops: seq<PadOp>, k: nat, now: int)
    requires k < |ops| && ops[k].Use? && AnswerAt(ops, k).Blocked?
    requires Run(ops).generation == AnswerAt(ops, k).seen
    requires ops[k].now <= now
    ensures Run(ops).pending == 0
    ensures ops[k].cached ==> !WindowOpen(Run(ops), ops[k].slot, now)
    ensures Consume(Run(ops), ops[k].slot, ops[k].cached, now) == (Run(ops), Blocked(AnswerAt(ops, k).seen))
  {
    if k < |ops| - 1 {
      var before := ops[..|ops| - 1];
      PrefixAnswers(ops, |ops| - 1, k);
      GenerationGrows(ops, k + 1, |ops| - 1);
      assert ops[..k + 1][..k] == ops[..k];
      NoLostWakeUp(before, k, now);
    }
  }

  lemma {:induction false} GenerationGrows(ops: seq<PadOp>, m: nat, n: nat)
    requires m <= n <= |ops|
    ensures Run(ops[..m]).generation <= Run(ops[..n]).generation
    decreases n
  {
    if m < n {
      GenerationGrows(ops, m, n - 1);
      assert ops[..n][..n - 1] == ops[..n - 1];
    }
  }
}
