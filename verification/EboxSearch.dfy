/** The unlocking search is exact (crates/piggy-box/src/unlock.rs). */
module EboxSearch {
  import opened Base
  import opened Wire
  import opened BoxFormat
  import opened TemplateFormat
  import opened EboxFormat
  import opened BoxCrypto
  import opened AgentExt
  import opened EboxUnlock

  /** Attempts made one after the other until one opens its part. */
  datatype Walked = Walked(asking: Asking, winner: Option<(Try, PivBox)>)

  /** The first `k` attempts of `order`. */
  function Walk(x: Crypto, e: Ebox, order: seq<Try>, a: Asking, k: nat): (w: Walked)
    requires Possible(e, order, a) && k <= |order|
    ensures w.asking.agent.Some? == a.agent.Some? && w.asking.card.Some? == a.card.Some?
  {
    if k == 0 then Walked(a, None)
    else
      var w := Walk(x, e, order, a, k - 1);
      if w.winner.Some? then w
      else
        var t := order[k - 1];
        Walked(AfterAttempt(x, e, t, w.asking),
               match AttemptAt(x, e, t, w.asking).box case None => None case Some(box) => Some((t, box)))
  }

  // --- a walk stops at the first attempt that opens ------------------------------------

  /** The walk's last attempt is the `j`-th of `order`, the first to open. */
  ghost predicate StopsAt(x: Crypto, e: Ebox, order: seq<Try>, a: Asking, w: Walked, j: nat)
    requires Possible(e, order, a)
  {
    && FirstToOpen(x, e, order, a, j) && w.asking == AfterFirst(x, e, order, a, j + 1)
    && w.winner == Some((order[j], AttemptIn(x, e, order, a, j).box.value))
  }

  lemma {:induction false} WalkIsFirstToOpen(x: Crypto, e: Ebox, order: seq<Try>, a: Asking, k: nat) returns (j: nat)
    requires Possible(e, order, a) && k <= |order|
    ensures var w := Walk(x, e, order, a, k);
            if w.winner.Some? then j < k && StopsAt(x, e, order, a, w, j)
            else w.asking == AfterFirst(x, e, order, a, k) && forall i: nat :: i < k ==> AttemptIn(x, e, order, a, i).box.None?
  {
    hide AttemptAt, AfterAttempt;
    j := 0;
    if k > 0 {
      j := WalkIsFirstToOpen(x, e, order, a, k - 1);
      if Walk(x, e, order, a, k - 1).winner.None? {
        assert AttemptIn(x, e, order, a, k - 1) == AttemptAt(x, e, order[k - 1], Walk(x, e, order, a, k - 1).asking);
        j := k - 1;
      }
    }
  }

  /** Once won, a walk goes no further. */
  lemma {:induction false} WalkStays(x: Crypto, e: Ebox, order: seq<Try>, a: Asking, j: nat, k: nat)
    requires Possible(e, order, a) && j <= k <= |order| && Walk(x, e, order, a, j).winner.Some?
    ensures Walk(x, e, order, a, k) == Walk(x, e, order, a, j)
  {
    hide AttemptAt, AfterAttempt;
    if j < k { WalkStays(x, e, order, a, j, k - 1); }
  }

  lemma {:induction false} WalkPrefix(x: Crypto, e: Ebox, first: seq<Try>, order: seq<Try>, a: Asking, k: nat)
    requires Possible(e, order, a) && Possible(e, first, a) && first <= order && k <= |first|
    ensures Walk(x, e, order, a, k) == Walk(x, e, first, a, k)
  {
    hide AttemptAt, AfterAttempt;
    if k > 0 { WalkPrefix(x, e, first, order, a, k - 1); }
  }

  lemma {:induction false} WalksJoin(x: Crypto, e: Ebox, first: seq<Try>, second: seq<Try>, a: Asking, k: nat)
    requires Possible(e, first + second, a) && Possible(e, first, a) && Possible(e, second, a) && k <= |second|
    ensures var w := Walk(x, e, first, a, |first|);
            Possible(e, second, w.asking) &&
            Walk(x, e, first + second, a, |first| + k) == if w.winner.Some? then w else Walk(x, e, second, w.asking, k)
  {
    hide AttemptAt, AfterAttempt;
    if k == 0 {
      WalkPrefix(x, e, first, first + second, a, |first|);
    } else {
      WalksJoin(x, e, first, second, a, k - 1);
      assert (first + second)[|first| + k - 1] == second[k - 1];
    }
  }

  // --- one oracle over one config ----------------------------------------------------------

  lemma LaterJoins(a: Option<Reason>, b: Option<Reason>, c: Option<Reason>)
    ensures Later(Later(a, b), c) == Later(a, Later(b, c))
  {
  }

  /** What one oracle's run over a config's parts says about a walk over the same attempts. */
  ghost predicate Mirrors(
      t: TriedParts, parts: seq<Part>, idx: nat, who: Who, reason: Option<Reason>, w: Walked, a: Asking) {
    && t.anyOpened == w.winner.Some?
    && OracleOf(w.asking, who) == Some(t.oracle)
    && (if who == Agent then w.asking.card == a.card else w.asking.agent == a.agent)
    && (!t.anyOpened ==> t.parts == parts && w.asking.reason == Later(reason, t.reason))
    && (t.anyOpened ==>
          var (try, box) := w.winner.value;
          try.config == idx && try.part < |parts| && t.parts == parts[try.part := parts[try.part].(box := box)])
  }

  lemma TriesPossible(e: Ebox, idx: nat, who: Who, a: Asking)
    requires idx < |e.configs| && OracleOf(a, who).Some?
    ensures Possible(e, PartTries(idx, who, |e.configs[idx].parts|), a)
  {
  }

  lemma {:induction false} TryPartsMirrorsWalk(
      x: Crypto, e: Ebox, idx: nat, who: Who, a: Asking, i: nat, oracle: Oracle, local: Option<Reason>)
    requires idx < |e.configs| && i <= |e.configs[idx].parts| && OracleOf(a, who).Some?
    requires Possible(e, PartTries(idx, who, |e.configs[idx].parts|), a)
    requires var w := Walk(x, e, PartTries(idx, who, |e.configs[idx].parts|), a, i);
             && w.winner.None? && OracleOf(w.asking, who) == Some(oracle) && w.asking.reason == Later(a.reason, local)
             && (if who == Agent then w.asking.card == a.card else w.asking.agent == a.agent)
    ensures Mirrors(TryParts(x, e.ephemerals, e.configs[idx].parts, i, oracle, local), e.configs[idx].parts, idx, who, a.reason,
                    Walk(x, e, PartTries(idx, who, |e.configs[idx].parts|), a, |e.configs[idx].parts|), a)
    decreases |e.configs[idx].parts| - i
  {
    hide TryPart;
    var parts := e.configs[idx].parts;
    var tries := PartTries(idx, who, |parts|);
    if i < |parts| {
      var t := TryPart(x, e.ephemerals, parts[i].box, oracle);
      assert AttemptAt(x, e, tries[i], Walk(x, e, tries, a, i).asking) == t;
      if t.box.Some? {
        WalkStays(x, e, tries, a, i + 1, |parts|);
      } else {
        LaterJoins(a.reason, local, t.reason);
        TryPartsMirrorsWalk(x, e, idx, who, a, i + 1, t.oracle, Later(local, t.reason));
      }
    }
  }

  /** Opening only adds the plaintext, so taking it out again leaves the part as it was. */
  lemma OpeningAddsPlaintext(x: Crypto, ephemerals: seq<Ephemeral>, box: PivBox, oracle: Oracle)
    requires box.plaintext.None? && TryPart(x, ephemerals, box, oracle).box.Some?
    ensures var after := TryPart(x, ephemerals, box, oracle).box.value;
            after.plaintext.Some? && after.(plaintext := None) == box
  {
    hide PartQuery;
  }

  /** The walk's winner, as an ebox: the opened data is the key, and nothing else has changed. */
  function Won(e: Ebox, w: Walked): Ebox { if w.winner.None? then e else e.(key := w.winner.value.1.plaintext) }

  lemma {:induction false} WinnerOpened(x: Crypto, e: Ebox, order: seq<Try>, a: Asking, k: nat)
    requires Possible(e, order, a) && k <= |order| && FreshlyParsed(e) && Walk(x, e, order, a, k).winner.Some?
    ensures var (t, box) := Walk(x, e, order, a, k).winner.value;
            && InRange(e, t) && box.plaintext.Some?
            && box.(plaintext := None) == e.configs[t.config].parts[t.part].box
  {
    var w := Walk(x, e, order, a, k - 1);
    if w.winner.Some? {
      WinnerOpened(x, e, order, a, k - 1);
    } else {
      var t := order[k - 1];
      OpeningAddsPlaintext(x, e.ephemerals, e.configs[t.config].parts[t.part].box, OracleOf(w.asking, t.who).value);
    }
  }

  lemma TryConfigMirrorsWalk(x: Crypto, e: Ebox, idx: nat, who: Who, a: Asking)
    requires idx < |e.configs| && FreshlyParsed(e) && OracleOf(a, who).Some?
    ensures Possible(e, PartTries(idx, who, |e.configs[idx].parts|), a)
    ensures var w := Walk(x, e, PartTries(idx, who, |e.configs[idx].parts|), a, |e.configs[idx].parts|);
            var (e', oracle, result) := TryConfig(x, e, idx, OracleOf(a, who).value);
            && e' == Won(e, w) && OracleOf(w.asking, who) == Some(oracle)
            && (if who == Agent then w.asking.card == a.card else w.asking.agent == a.agent)
            && (result.Success? <==> w.winner.Some?)
            && (w.winner.None? ==> result.Failure? && result.error.UnlockFailed? && w.asking.reason == Noted(a.reason, result))
  {
    hide TryPart, TryParts;
    var parts := e.configs[idx].parts;
    var tries := PartTries(idx, who, |parts|);
    TriesPossible(e, idx, who, a);
    TryPartsMirrorsWalk(x, e, idx, who, a, 0, OracleOf(a, who).value, None);
    var t, w := TryParts(x, e.ephemerals, parts, 0, OracleOf(a, who).value, None), Walk(x, e, tries, a, |parts|);
    if w.winner.None? {
      assert e.configs[idx := e.configs[idx].(parts := parts)] == e.configs;
    } else {
      WinnerOpened(x, e, tries, a, |parts|);
      var (try, box) := w.winner.value;
      UnlockAfterOpening(e, idx, try.part, box);
    }
  }

  lemma UnlockAfterOpening(e: Ebox, idx: nat, i: nat, box: PivBox)
    requires FreshlyParsed(e) && idx < |e.configs| && i < |e.configs[idx].parts|
    requires box.plaintext.Some? && box.(plaintext := None) == e.configs[idx].parts[i].box
    ensures var parts := e.configs[idx].parts;
            AfterUnlock(WithParts(e, idx, parts[i := parts[i].(box := box)]), idx) == (e.(key := box.plaintext), Success(()))
  {
    var parts := e.configs[idx].parts;
    var opened' := parts[i := parts[i].(box := box)];
    assert FirstOpen(opened') == i by {
      var k := FirstOpen(opened');
      assert k < |opened'| ==> opened'[k].box.plaintext.Some?;
      assert opened'[i].box.plaintext.Some?;
    }
    assert opened'[i := Taken(opened'[i])] == parts;
    assert e.configs[idx := e.configs[idx].(parts := parts)] == e.configs;
    var e1 := WithParts(e, idx, opened');
    assert WithParts(e1, idx, parts).configs == e.configs;
  }

  // --- the whole search -------------------------------------------------------------------------

  function Started(s: Search): Asking { Asking(s.agent, s.card, s.reason) }

  lemma OrderPossible(e: Ebox, idx: nat, a: Asking)
    requires idx <= |e.configs|
    ensures Possible(e, Order(e, idx, a.agent.Some?, a.card.Some?), a)
    decreases |e.configs| - idx
  {
    if idx < |e.configs| { OrderPossible(e, idx + 1, a); }
  }

  lemma ConfigTriesPossible(e: Ebox, idx: nat, a: Asking)
    requires idx < |e.configs|
    ensures Possible(e, ConfigTries(e, idx, a.agent.Some?, a.card.Some?), a)
  {
  }

  /** What a search state says about a walk: same ebox, same oracles, same reason, same outcome. */
  ghost predicate Matches(s: Search, e: Ebox, w: Walked) {
    && s.ebox == Won(e, w) && s.agent == w.asking.agent && s.card == w.asking.card
    && (s.result.Success? <==> w.winner.Some?)
    && (w.winner.None? ==> s.reason == w.asking.reason)
  }

  /** A walk over all of an order. */
  function WalkAll(x: Crypto, e: Ebox, order: seq<Try>, a: Asking): (w: Walked)
    requires Possible(e, order, a)
    ensures w.asking.agent.Some? == a.agent.Some? && w.asking.card.Some? == a.card.Some?
  {
    Walk(x, e, order, a, |order|)
  }

  lemma NoAttempts(x: Crypto, e: Ebox, order: seq<Try>, a: Asking)
    requires order == [] && Possible(e, order, a)
    ensures WalkAll(x, e, order, a) == Walked(a, None)
  {
  }

  lemma AllJoin(x: Crypto, e: Ebox, first: seq<Try>, second: seq<Try>, a: Asking)
    requires Possible(e, first + second, a) && Possible(e, first, a) && Possible(e, second, a)
    ensures var w := WalkAll(x, e, first, a);
            Possible(e, second, w.asking) &&
            WalkAll(x, e, first + second, a) == if w.winner.Some? then w else WalkAll(x, e, second, w.asking)
  {
    hide Walk;
    WalksJoin(x, e, first, second, a, |second|);
  }

  lemma SearchConfigMirrorsWalk(x: Crypto, s: Search, idx: nat)
    requires idx < |s.ebox.configs| && FreshlyParsed(s.ebox) && s.result.Failure? && s.ebox.configs[idx].kind == Primary
    ensures Possible(s.ebox, ConfigTries(s.ebox, idx, s.agent.Some?, s.card.Some?), Started(s))
    ensures Matches(SearchConfig(x, s, idx), s.ebox, WalkAll(x, s.ebox, ConfigTries(s.ebox, idx, s.agent.Some?, s.card.Some?), Started(s)))
  {
    hide TryConfig, TryPart, Walk;
    var e, a := s.ebox, Started(s);
    var n := |e.configs[idx].parts|;
    ConfigTriesPossible(e, idx, a);
    if s.agent.Some? { TryConfigMirrorsWalk(x, e, idx, Agent, a); }
    var first := if s.agent.Some? then PartTries(idx, Agent, n) else [];
    var w1 := WalkAll(x, e, first, a);
    if first == [] { NoAttempts(x, e, first, a); }
    var second := if s.card.Some? then PartTries(idx, Card, n) else [];
    assert first + second == ConfigTries(e, idx, s.agent.Some?, s.card.Some?);
    AllJoin(x, e, first, second, a);
    if second == [] { NoAttempts(x, e, second, w1.asking); }
    if s.card.Some? && w1.winner.None? { TryConfigMirrorsWalk(x, e, idx, Card, w1.asking); }
  }

  lemma {:induction false} SearchMirrorsWalk(x: Crypto, s: Search, idx: nat)
    requires idx <= |s.ebox.configs| && FreshlyParsed(s.ebox) && s.result.Failure?
    ensures Possible(s.ebox, Order(s.ebox, idx, s.agent.Some?, s.card.Some?), Started(s))
    ensures Matches(SearchFrom(x, s, idx), s.ebox, WalkAll(x, s.ebox, Order(s.ebox, idx, s.agent.Some?, s.card.Some?), Started(s)))
    decreases |s.ebox.configs| - idx
  {
    hide SearchConfig, TryPart, WalkAll;
    var e, a := s.ebox, Started(s);
    OrderPossible(e, idx, a);
    if idx == |e.configs| {
      NoAttempts(x, e, Order(e, idx, s.agent.Some?, s.card.Some?), a);
    } else {
      var here, there := ConfigTries(e, idx, s.agent.Some?, s.card.Some?), Order(e, idx + 1, s.agent.Some?, s.card.Some?);
      ConfigTriesPossible(e, idx, a);
      OrderPossible(e, idx + 1, a);
      AllJoin(x, e, here, there, a);
      if e.configs[idx].kind == Primary {
        SearchConfigMirrorsWalk(x, s, idx);
        var s' := SearchConfig(x, s, idx);
        if s'.result.Failure? {
          assert s'.ebox == e && Started(s') == WalkAll(x, e, here, a).asking;
          assert s'.agent.Some? == s.agent.Some? && s'.card.Some? == s.card.Some?;
          SearchMirrorsWalk(x, s', idx + 1);
        } else {
          Finished(x, s', idx + 1);
        }
      } else {
        NoAttempts(x, e, here, a);
        SearchMirrorsWalk(x, s, idx + 1);
      }
    }
  }

  lemma Finished(x: Crypto, s: Search, idx: nat)
    requires idx <= |s.ebox.configs| && s.result.Success?
    ensures SearchFrom(x, s, idx) == s
  {
  }

  // --- the order, independently of how it is built ---------------------------------------

  predicate Listed(e: Ebox, idx: nat, withAgent: bool, withCard: bool, t: Try) {
    && idx <= t.config && InRange(e, t) && e.configs[t.config].kind == Primary
    && (if t.who == Agent then withAgent else withCard)
  }

  /** Config first, then the agent before the card, then the part. */
  predicate Before(s: Try, t: Try) {
    s.config < t.config || (s.config == t.config && ((s.who == Agent && t.who == Card) || (s.who == t.who && s.part < t.part)))
  }

  predicate InOrder(order: seq<Try>) { forall i, j :: 0 <= i < j < |order| ==> Before(order[i], order[j]) }

  lemma InOrderJoins(first: seq<Try>, second: seq<Try>)
    requires InOrder(first) && InOrder(second)
    requires forall i, j :: 0 <= i < |first| && 0 <= j < |second| ==> Before(first[i], second[j])
    ensures InOrder(first + second)
  {
    hide Before;
    var all := first + second;
    forall i, j | 0 <= i < j < |all| ensures Before(all[i], all[j]) {
      if j < |first| {
        assert Before(first[i], first[j]);
      } else if i < |first| {
        assert Before(first[i], second[j - |first|]);
      } else {
        assert Before(second[i - |first|], second[j - |first|]);
      }
    }
  }

  /** Every attempt on a PRIMARY part with a supplied oracle is listed, once, in that order. */
  lemma {:induction false} OrderIsEveryAttemptInOrder(e: Ebox, idx: nat, withAgent: bool, withCard: bool)
    requires idx <= |e.configs|
    ensures forall t :: t in Order(e, idx, withAgent, withCard) <==> Listed(e, idx, withAgent, withCard, t)
    ensures InOrder(Order(e, idx, withAgent, withCard))
    decreases |e.configs| - idx
  {
    if idx < |e.configs| {
      hide InOrder, ConfigTries;
      OrderIsEveryAttemptInOrder(e, idx + 1, withAgent, withCard);
      var here, there := ConfigTries(e, idx, withAgent, withCard), Order(e, idx + 1, withAgent, withCard);
      ConfigTriesAreListed(e, idx, withAgent, withCard);
      forall i, j | 0 <= i < |here| && 0 <= j < |there| ensures Before(here[i], there[j]) {
        assert here[i] in here && there[j] in there;
      }
      InOrderJoins(here, there);
    }
  }

  lemma ConfigTriesAreListed(e: Ebox, idx: nat, withAgent: bool, withCard: bool)
    requires idx < |e.configs|
    ensures forall t :: t in ConfigTries(e, idx, withAgent, withCard) <==> Listed(e, idx, withAgent, withCard, t) && t.config == idx
    ensures InOrder(ConfigTries(e, idx, withAgent, withCard))
  {
    var n := |e.configs[idx].parts|;
    var agents := if withAgent then PartTries(idx, Agent, n) else [];
    var cards := if withCard then PartTries(idx, Card, n) else [];
    if e.configs[idx].kind == Primary {
      forall t ensures t in agents + cards <==> Listed(e, idx, withAgent, withCard, t) && t.config == idx {
        if Listed(e, idx, withAgent, withCard, t) && t.config == idx {
          if t.who == Agent { assert agents[t.part] == t; } else { assert cards[t.part] == t; }
        }
      }
      InOrderJoins(agents, cards);
    }
  }

  /** How a search that took the `k`-th attempt of `order` ends. */
  ghost predicate WonBy(x: Crypto, e: Ebox, order: seq<Try>, a: Asking, k: nat, s: Search)
    requires Possible(e, order, a) && FirstToOpen(x, e, order, a, k)
  {
    var after := AfterFirst(x, e, order, a, k + 1);
    && s.result.Success? && s.ebox == e.(key := AttemptIn(x, e, order, a, k).box.value.plaintext)
    && s.agent == after.agent && s.card == after.card
  }

  /** How a search that no attempt of `order` won ends. */
  ghost predicate LostAfter(x: Crypto, e: Ebox, order: seq<Try>, a: Asking, s: Search)
    requires Possible(e, order, a)
  {
    var after := AfterFirst(x, e, order, a, |order|);
    s.result == Failure(UnlockFailed(after.reason)) && s.ebox == e && s.agent == after.agent && s.card == after.card
  }

  /**
   * On an ebox fresh from the wire, unlocking succeeds exactly if some supplied oracle opens
   * some PRIMARY part. It takes the first that does in (config, agent before card, part)
   * order, its data is the key, nothing else about the ebox changes, and no oracle is asked
   * anything after it. If none does, the ebox is as it was, every attempt was made once, and the
   * error names the last failure that says more than "no such key".
   */
  lemma SearchIsExact(x: Crypto, e: Ebox, agent: Option<Oracle>, card: Option<Oracle>) returns (k: nat)
    requires FreshlyParsed(e)
    ensures var order, a, s := Order(e, 0, agent.Some?, card.Some?), Asking(agent, card, InitialReason(e)), Unlock(x, e, agent, card);
            && Possible(e, order, a)
            && (s.result.Success? <==> exists j: nat :: FirstToOpen(x, e, order, a, j))
            && (s.result.Success? ==> FirstToOpen(x, e, order, a, k) && WonBy(x, e, order, a, k, s))
            && (s.result.Failure? ==> LostAfter(x, e, order, a, s) && forall j: nat :: j < |order| ==> AttemptIn(x, e, order, a, j).box.None?)
  {
    hide Walk, AttemptAt, SearchFrom, Order;
    var order, a := Order(e, 0, agent.Some?, card.Some?), Asking(agent, card, InitialReason(e));
    var s := Search(e, agent, card, InitialReason(e), Failure(UnlockFailed(None)));
    SearchMirrorsWalk(x, s, 0);
    k := WalkIsFirstToOpen(x, e, order, a, |order|);
  }

  // --- one attempt, in terms of the primitives alone -----------------------------------------

  /** The ephemeral key listed for a curve is the first of that curve. */
  lemma {:induction false} FirstOfItsCurve(ephemerals: seq<Ephemeral>, curve: Curve, i: nat)
    requires i <= |ephemerals| && forall j :: 0 <= j < i ==> ephemerals[j].curve != curve
    requires i < |ephemerals| ==> ephemerals[i].curve == curve
    ensures SharedEphemeral(ephemerals, curve) == if i < |ephemerals| then ephemerals[i].pubkey else []
  {
    if i > 0 { FirstOfItsCurve(ephemerals[1..], curve, i - 1); }
  }

  /** An uncompressed point as it is, a compressed one decompressed. */
  function PointOf(x: Crypto, curve: Curve, key: Bytes): Option<Bytes> {
    if key == [] then None else if key[0] == 0x04 then Some(key) else x.parsePoint(curve, key)
  }

  /**
   * Nothing is asked about a part whose recipient or ephemeral key is missing or no point. The ephemeral
   * key is the box's own, or else the one listed for its curve. Otherwise the oracle is asked once, about
   * the recipient and the ephemeral key in that order. A refusal opens nothing and tells nothing, a failure
   * is told about, and a secret opens the box exactly if the AEAD does under the first half of the
   * SHA-512 of it and the box's nonce, to something well padded; if not, that is told about.
   */
  lemma AttemptIs(x: Crypto, ephemerals: seq<Ephemeral>, box: PivBox, oracle: Oracle, listed: Bytes)
    requires Lawful(x) && listed == SharedEphemeral(ephemerals, box.fields.suite.curve)
    ensures var t, curve := TryPart(x, ephemerals, box, oracle), box.fields.suite.curve;
            var ephemeral := PointOf(x, curve, if box.ephemeral != [] then box.ephemeral else listed);
            var recipient := PointOf(x, curve, box.fields.suite.recipient);
            if ephemeral.None? || recipient.None? then t == Tried(oracle, None, None)
            else
              var q := Query(PointBlob(curve, recipient.value), PointBlob(curve, ephemeral.value));
              && t.oracle == Oracle(oracle.answer, oracle.asked + [q])
              && match oracle.answer(oracle.asked, q)
                 case NoKey => t.box.None? && t.reason.None?
                 case OracleFailure(text) => t.box.None? && t.reason == Some(OracleSaid(text))
                 case Secret(secret) => SecretOpens(x, box, secret, t)
  {
    hide PointBlob, Lawful, Opened, SecretOpens;
    var curve := box.fields.suite.curve;
    var ephemeral := PointOf(x, curve, if box.ephemeral != [] then box.ephemeral else listed);
    var recipient := PointOf(x, curve, box.fields.suite.recipient);
    if ephemeral.Some? && recipient.Some? {
      var reply := oracle.answer(oracle.asked, Query(PointBlob(curve, recipient.value), PointBlob(curve, ephemeral.value)));
      if reply.Secret? { SecretOpensIs(x, box, reply.bytes, TryPart(x, ephemerals, box, oracle)); }
    }
  }

  /** What a secret does to a box. */
  predicate SecretOpens(x: Crypto, box: PivBox, secret: Bytes, t: Tried) {
    var digest := x.sha512(secret + box.fields.suite.nonce);
    if |box.fields.iv| != 12 || |box.fields.ciphertext| < 16 || |digest| != 64
    then t.box.None? && t.reason == Some(OpenFailed(CryptoFailure))
    else match x.aeadOpen(digest[..32], box.fields.iv, box.fields.ciphertext)
      case None => t.box.None? && t.reason == Some(OpenFailed(CryptoFailure))
      case Some(padded) =>
        if WellPadded(padded, 16)
        then t.box == Some(box.(plaintext := Some(padded[..|padded| - padded[|padded| - 1] as int]))) && t.reason.None?
        else t.box.None? && t.reason == Some(OpenFailed(BadPadding))
  }

  lemma SecretOpensIs(x: Crypto, box: PivBox, secret: Bytes, t: Tried)
    requires Lawful(x)
    requires match Opened(x, box, secret)
             case Failure(e) => t.box.None? && t.reason == Some(OpenFailed(e))
             case Success(after) => t.box == Some(after) && t.reason.None?
    ensures SecretOpens(x, box, secret, t)
  {
    hide LawfulPoints, LawfulAgreement, LawfulSharing;
    if |box.fields.iv| == 12 && |box.fields.ciphertext| >= 16 { OpeningIs(x, box, secret); }
  }

  // --- what a failed search tells -----------------------------------------------------------

  /** The `j`-th attempt is the last of the first `k` that had something to tell. */
  ghost predicate LastTelling(x: Crypto, e: Ebox, order: seq<Try>, a: Asking, k: nat, j: nat)
    requires Possible(e, order, a) && k <= |order|
  {
    && j < k && AttemptIn(x, e, order, a, j).reason.Some?
    && forall i: nat :: j < i < k ==> AttemptIn(x, e, order, a, i).reason.None?
  }

  lemma NothingAskedYet(x: Crypto, e: Ebox, order: seq<Try>, a: Asking)
    requires Possible(e, order, a)
    ensures AfterFirst(x, e, order, a, 0) == a
  {
  }

  lemma ReasonAfterOneMore(x: Crypto, e: Ebox, order: seq<Try>, a: Asking, k: nat)
    requires Possible(e, order, a) && 0 < k <= |order|
    ensures AfterFirst(x, e, order, a, k).reason ==
            Later(AfterFirst(x, e, order, a, k - 1).reason, AttemptIn(x, e, order, a, k - 1).reason)
  {
    hide AttemptAt;
  }

  lemma {:induction false} ReasonIsTheLastTold(x: Crypto, e: Ebox, order: seq<Try>, a: Asking, k: nat) returns (j: nat)
    requires Possible(e, order, a) && k <= |order|
    ensures if forall i: nat :: i < k ==> AttemptIn(x, e, order, a, i).reason.None?
            then AfterFirst(x, e, order, a, k).reason == a.reason
            else LastTelling(x, e, order, a, k, j) && AfterFirst(x, e, order, a, k).reason == AttemptIn(x, e, order, a, j).reason
  {
    hide AttemptIn, AfterFirst;
    j := 0;
    if k == 0 {
      NothingAskedYet(x, e, order, a);
    } else {
      j := ReasonIsTheLastTold(x, e, order, a, k - 1);
      ReasonAfterOneMore(x, e, order, a, k);
      if AttemptIn(x, e, order, a, k - 1).reason.Some? { j := k - 1; }
    }
  }

  /**
   * A failed search names the failure of the last attempt that had one to tell. If none had, it says that
   * there are only RECOVERY configs exactly if there is one and no PRIMARY, and otherwise nothing.
   */
  lemma FailureNamesTheLastTold(x: Crypto, e: Ebox, agent: Option<Oracle>, card: Option<Oracle>) returns (j: nat)
    requires FreshlyParsed(e) && Unlock(x, e, agent, card).result.Failure?
    ensures var order, a := Order(e, 0, agent.Some?, card.Some?), Asking(agent, card, InitialReason(e));
            var onlyRecovery :=
              (exists c :: 0 <= c < |e.configs| && e.configs[c].kind == TemplateFormat.Recovery)
              && forall c :: 0 <= c < |e.configs| ==> e.configs[c].kind != Primary;
            && Possible(e, order, a)
            && Unlock(x, e, agent, card).result == Failure(UnlockFailed(
                 if forall i: nat :: i < |order| ==> AttemptIn(x, e, order, a, i).reason.None?
                 then (if onlyRecovery then Some(OnlyRecoveryConfigs) else None)
                 else if j < |order| then AttemptIn(x, e, order, a, j).reason else None))
            && ((exists i: nat :: i < |order| && AttemptIn(x, e, order, a, i).reason.Some?) ==> LastTelling(x, e, order, a, |order|, j))
  {
    hide Order, AttemptIn, AfterFirst, Unlock, Possible, InitialReason;
    var order, a := Order(e, 0, agent.Some?, card.Some?), Asking(agent, card, InitialReason(e));
    var k := SearchIsExact(x, e, agent, card);
    j := ReasonIsTheLastTold(x, e, order, a, |order|);
    InitiallyOnlyRecovery(e);
  }

  lemma InitiallyOnlyRecovery(e: Ebox)
    ensures InitialReason(e) ==
            if (exists c :: 0 <= c < |e.configs| && e.configs[c].kind == TemplateFormat.Recovery)
               && (forall c :: 0 <= c < |e.configs| ==> e.configs[c].kind != Primary)
            then Some(OnlyRecoveryConfigs) else None
  {
    if exists c :: 0 <= c < |e.configs| && e.configs[c].kind == TemplateFormat.Recovery {
      var c :| 0 <= c < |e.configs| && e.configs[c].kind == TemplateFormat.Recovery;
      assert e.configs[c] in e.configs;
    }
    if exists c :: 0 <= c < |e.configs| && e.configs[c].kind == Primary {
      var c :| 0 <= c < |e.configs| && e.configs[c].kind == Primary;
      assert e.configs[c] in e.configs;
    }
  }
}
