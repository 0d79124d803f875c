/**
 * Unlocking and recovering an ebox, as functions of the ebox and of what the key
 * holders answer (crates/piggy-box/src/unlock.rs and ebox.rs).
 */
module EboxUnlock {
  import opened Base
  import opened Wire
  import opened BoxFormat
  import opened TemplateFormat
  import opened EboxFormat
  import opened BoxCrypto
  import opened AgentExt

  // --- whoever holds the private keys ----------------------------------------------

  datatype Query = Query(self: Bytes, partner: Bytes)

  datatype OracleReply = Secret(bytes: Bytes) | NoKey | OracleFailure(text: Bytes)

  /** An oracle's answer may depend on everything it was asked before. */
  datatype Oracle = Oracle(answer: (seq<Query>, Query) -> OracleReply, asked: seq<Query>)

  function Asked(o: Oracle, q: Query): Oracle { o.(asked := o.asked + [q]) }

  // --- one part ------------------------------------------------------------------------

  /** Uncompressed encodings are passed on as they are. */
  function Decompress(x: Crypto, curve: Curve, point: Bytes): Option<Bytes> {
    if point != [] && point[0] == 4 then Some(point) else x.parsePoint(curve, point)
  }

  /** The ebox's first ephemeral key on that curve; nothing if there is none. */
  function SharedEphemeral(ephemerals: seq<Ephemeral>, curve: Curve): Bytes {
    if ephemerals == [] then []
    else if ephemerals[0].curve == curve then ephemerals[0].pubkey
    else SharedEphemeral(ephemerals[1..], curve)
  }

  /** What to ask about a part: its recipient key and the ephemeral key it was sealed with. */
  function PartQuery(x: Crypto, ephemerals: seq<Ephemeral>, box: PivBox): Option<Query> {
    var curve, recipient := box.fields.suite.curve, box.fields.suite.recipient;
    var ephemeral := if box.ephemeral != [] then box.ephemeral else SharedEphemeral(ephemerals, curve);
    if ephemeral == [] || recipient == [] then None
    else
      var self, partner := Decompress(x, curve, recipient), Decompress(x, curve, ephemeral);
      if self.None? || partner.None? then None
      else Some(Query(PointBlob(curve, self.value), PointBlob(curve, partner.value)))
  }

  /** One oracle's attempt at one part: the opened box, if it opened, or a failure worth telling about. */
  datatype Tried = Tried(oracle: Oracle, box: Option<PivBox>, reason: Option<Reason>)

  function TryPart(x: Crypto, ephemerals: seq<Ephemeral>, box: PivBox, oracle: Oracle): Tried {
    match PartQuery(x, ephemerals, box)
    case None => Tried(oracle, None, None)
    case Some(q) =>
      match oracle.answer(oracle.asked, q)
      case NoKey => Tried(Asked(oracle, q), None, None)
      case OracleFailure(text) => Tried(Asked(oracle, q), None, Some(OracleSaid(text)))
      case Secret(secret) =>
        match Opened(x, box, secret)
        case Failure(e) => Tried(Asked(oracle, q), None, Some(OpenFailed(e)))
        case Success(after) => Tried(Asked(oracle, q), Some(after), None)
  }

  function Later(reason: Option<Reason>, newer: Option<Reason>): Option<Reason> {
    if newer.Some? then newer else reason
  }

  // --- one config ---------------------------------------------------------------------------

  datatype TriedParts = TriedParts(oracle: Oracle, parts: seq<Part>, anyOpened: bool, reason: Option<Reason>)

  /** The parts from the `i`-th on, until one opens. */
  function TryParts(
      x: Crypto, ephemerals: seq<Ephemeral>, parts: seq<Part>, i: nat, oracle: Oracle,
      reason: Option<Reason>): (r: TriedParts)
    requires i <= |parts|
    ensures |r.parts| == |parts|
    decreases |parts| - i
  {
    if i == |parts| then TriedParts(oracle, parts, false, reason)
    else
      var t := TryPart(x, ephemerals, parts[i].box, oracle);
      if t.box.Some? then TriedParts(t.oracle, parts[i := parts[i].(box := t.box.value)], true, reason)
      else TryParts(x, ephemerals, parts, i + 1, t.oracle, Later(reason, t.reason))
  }

  /** The first part whose plaintext is at hand; the number of parts if there is none. */
  function FirstOpen(parts: seq<Part>): (i: nat)
    ensures i <= |parts|
    ensures i < |parts| ==> parts[i].box.plaintext.Some?
    ensures forall j :: 0 <= j < i ==> parts[j].box.plaintext.None?
  {
    if parts == [] || parts[0].box.plaintext.Some? then 0 else 1 + FirstOpen(parts[1..])
  }

  function Taken(part: Part): Part { part.(box := part.box.(plaintext := None)) }

  /** `unlock`: the first opened part's data becomes the key. */
  function AfterUnlock(e: Ebox, idx: nat): (r: (Ebox, Outcome<()>))
    requires idx < |e.configs|
    ensures |r.0.configs| == |e.configs|
  {
    var parts := e.configs[idx].parts;
    var i := FirstOpen(parts);
    if e.key.Some? then (e, Failure(AlreadyUnlocked))
    else if i == |parts| then (e, Failure(UnlockFailed(None)))
    else (WithParts(e, idx, parts[i := Taken(parts[i])]).(key := parts[i].box.plaintext), Success(()))
  }

  function WithParts(e: Ebox, idx: nat, parts: seq<Part>): (r: Ebox)
    requires idx < |e.configs|
    ensures |r.configs| == |e.configs|
  {
    e.(configs := e.configs[idx := e.configs[idx].(parts := parts)])
  }

  /** One oracle's attempt at a whole config. */
  function TryConfig(x: Crypto, e: Ebox, idx: nat, oracle: Oracle): (r: (Ebox, Oracle, Outcome<()>))
    requires idx < |e.configs|
    ensures |r.0.configs| == |e.configs|
  {
    var t := TryParts(x, e.ephemerals, e.configs[idx].parts, 0, oracle, None);
    if !t.anyOpened then (WithParts(e, idx, t.parts), t.oracle, Failure(UnlockFailed(t.reason)))
    else
      var (e', result) := AfterUnlock(WithParts(e, idx, t.parts), idx);
      (e', t.oracle, result)
  }

  // --- the whole ebox --------------------------------------------------------------------------

  datatype Search = Search(ebox: Ebox, agent: Option<Oracle>, card: Option<Oracle>, reason: Option<Reason>, result: Outcome<()>)

  /** The failure a caller is told about is the last one that says more than "no such key". */
  function Noted(reason: Option<Reason>, result: Outcome<()>): Option<Reason> {
    if result.Failure? && result.error.UnlockFailed? then Later(reason, result.error.reason) else reason
  }

  /** One config with each oracle supplied, the agent first. */
  function SearchConfig(x: Crypto, s: Search, idx: nat): (r: Search)
    requires idx < |s.ebox.configs|
    ensures |r.ebox.configs| == |s.ebox.configs|
  {
    var s1 :=
      if s.agent.None? then s
      else
        var (e, oracle, result) := TryConfig(x, s.ebox, idx, s.agent.value);
        Search(e, Some(oracle), s.card, Noted(s.reason, result), result);
    if s1.result.Success? || s.card.None? then s1
    else
      var (e, oracle, result) := TryConfig(x, s1.ebox, idx, s.card.value);
      Search(e, s1.agent, Some(oracle), Noted(s1.reason, result), result)
  }

  /** The PRIMARY configs from the `idx`-th on, until one gives the key. */
  function SearchFrom(x: Crypto, s: Search, idx: nat): Search
    requires idx <= |s.ebox.configs|
    decreases |s.ebox.configs| - idx
  {
    if s.result.Success? || idx == |s.ebox.configs| then s
    else SearchFrom(x, if s.ebox.configs[idx].kind == Primary then SearchConfig(x, s, idx) else s, idx + 1)
  }

  /** An ebox with RECOVERY configs only cannot be unlocked this way, and the error says so. */
  function InitialReason(e: Ebox): Option<Reason> {
    if (forall c :: c in e.configs ==> c.kind != Primary) && (exists c :: c in e.configs && c.kind == TemplateFormat.Recovery)
    then Some(OnlyRecoveryConfigs) else None
  }

  function Unlock(x: Crypto, e: Ebox, agent: Option<Oracle>, card: Option<Oracle>): Search {
    var s := SearchFrom(x, Search(e, agent, card, InitialReason(e), Failure(UnlockFailed(None))), 0);
    if s.result.Success? then s else s.(result := Failure(UnlockFailed(s.reason)))
  }

  // --- recovery -----------------------------------------------------------------------------------

  /** What was opened, in order, whether or not it parses as a share. */
  function OpenData(parts: seq<Part>): seq<Bytes> {
    if parts == [] then []
    else
      var n := |parts| - 1;
      OpenData(parts[..n]) + (if parts[n].box.plaintext.Some? then [parts[n].box.plaintext.value] else [])
  }

  function SharesAmong(x: Crypto, data: seq<Bytes>): seq<Bytes> {
    if data == [] then []
    else SharesAmong(x, data[..|data| - 1]) + (if x.isShare(data[|data| - 1]) then [data[|data| - 1]] else [])
  }

  function TakenParts(parts: seq<Part>): (r: seq<Part>)
    ensures |r| == |parts|
  {
    seq(|parts|, i requires 0 <= i < |parts| => Taken(parts[i]))
  }

  const RECOV_KEY: Byte := 2

  /** The first key among the tagged strings of a recovery box; unknown tags are skipped. */
  function RecoveredKey(b: Bytes): Outcome<Bytes>
    decreases |b|
  {
    var tag :- GetU8(b);
    var data :- GetString8(tag.1);
    if tag.0 == RECOV_KEY then Success(data.0)
    else if data.1 == [] then Failure(CryptoFailure)
    else RecoveredKey(data.1)
  }

  /** `recover`: combine the opened shares, unmask the recovery key and open the recovery box. */
  function RecoveredFrom(x: Crypto, e: Ebox, config: Config): Outcome<Bytes> {
    var shares := SharesAmong(x, OpenData(config.parts));
    if |shares| < config.n then Failure(ThresholdNotMet(|shares|, config.n))
    else match x.combine(config.n, shares)
      case None => Failure(CryptoFailure)
      case Some(configKey) =>
        if |config.nonce| != |configKey| || |e.recoveryEnc| < 16 then Failure(CryptoFailure)
        else match x.gcmOpen(Xor(configKey, config.nonce), e.recoveryIv, e.recoveryEnc)
          case None => Failure(CryptoFailure)
          case Some(plain) => RecoveredKey(plain)
  }

  /** Whether or not it works, the opened data has left the parts. */
  function AfterRecover(x: Crypto, e: Ebox, idx: nat): (Ebox, Outcome<()>)
    requires idx < |e.configs|
  {
    if e.key.Some? then (e, Failure(AlreadyUnlocked))
    else
      var taken := WithParts(e, idx, TakenParts(e.configs[idx].parts));
      match RecoveredFrom(x, e, e.configs[idx])
      case Failure(error) => (taken, Failure(error))
      case Success(key) => (taken.(key := Some(key)), Success(()))
  }

  // --- the search in one line ------------------------------------------------------------------------

  /** Locked, and nothing opened yet: how an ebox comes off the wire. */
  predicate FreshlyParsed(e: Ebox) {
    e.key.None? && forall i :: 0 <= i < |e.configs| ==> forall j :: 0 <= j < |e.configs[i].parts| ==> e.configs[i].parts[j].box.plaintext.None?
  }

  datatype Who = Agent | Card

  datatype Try = Try(config: nat, who: Who, part: nat)

  predicate InRange(e: Ebox, t: Try) { t.config < |e.configs| && t.part < |e.configs[t.config].parts| }

  /** Both oracles, and the last reason so far. */
  datatype Asking = Asking(agent: Option<Oracle>, card: Option<Oracle>, reason: Option<Reason>)

  function OracleOf(a: Asking, who: Who): Option<Oracle> { if who == Agent then a.agent else a.card }

  function AttemptAt(x: Crypto, e: Ebox, t: Try, a: Asking): Tried
    requires InRange(e, t) && OracleOf(a, t.who).Some?
  {
    TryPart(x, e.ephemerals, e.configs[t.config].parts[t.part].box, OracleOf(a, t.who).value)
  }

  function AfterAttempt(x: Crypto, e: Ebox, t: Try, a: Asking): (r: Asking)
    requires InRange(e, t) && OracleOf(a, t.who).Some?
    ensures r.agent.Some? == a.agent.Some? && r.card.Some? == a.card.Some?
  {
    var tried := AttemptAt(x, e, t, a);
    var b := a.(reason := Later(a.reason, tried.reason));
    if t.who == Agent then b.(agent := Some(tried.oracle)) else b.(card := Some(tried.oracle))
  }

  function PartTries(idx: nat, who: Who, n: nat): (r: seq<Try>)
    ensures |r| == n
  {
    seq(n, j requires 0 <= j < n => Try(idx, who, j))
  }

  function ConfigTries(e: Ebox, idx: nat, withAgent: bool, withCard: bool): seq<Try>
    requires idx < |e.configs|
  {
    if e.configs[idx].kind != Primary then []
    else
      (if withAgent then PartTries(idx, Agent, |e.configs[idx].parts|) else [])
      + (if withCard then PartTries(idx, Card, |e.configs[idx].parts|) else [])
  }

  /** Every attempt there is, in (config, agent before card, part) order, from config `idx` on. */
  function Order(e: Ebox, idx: nat, withAgent: bool, withCard: bool): seq<Try>
    requires idx <= |e.configs|
    decreases |e.configs| - idx
  {
    if idx == |e.configs| then [] else ConfigTries(e, idx, withAgent, withCard) + Order(e, idx + 1, withAgent, withCard)
  }

  predicate Possible(e: Ebox, order: seq<Try>, a: Asking) {
    forall i :: 0 <= i < |order| ==> InRange(e, order[i]) && OracleOf(a, order[i].who).Some?
  }

  /** The oracles and the reason after the first `k` attempts of `order` were made. */
  function AfterFirst(x: Crypto, e: Ebox, order: seq<Try>, a: Asking, k: nat): (r: Asking)
    requires Possible(e, order, a) && k <= |order|
    ensures r.agent.Some? == a.agent.Some? && r.card.Some? == a.card.Some?
  {
    if k == 0 then a else AfterAttempt(x, e, order[k - 1], AfterFirst(x, e, order, a, k - 1))
  }

  /** The `k`-th attempt, made after all those before it. */
  function AttemptIn(x: Crypto, e: Ebox, order: seq<Try>, a: Asking, k: nat): Tried
    requires Possible(e, order, a) && k < |order|
  {
    AttemptAt(x, e, order[k], AfterFirst(x, e, order, a, k))
  }

  /** The `k`-th attempt opens its part, and none before it did. */
  predicate FirstToOpen(x: Crypto, e: Ebox, order: seq<Try>, a: Asking, k: nat)
    requires Possible(e, order, a)
  {
    && k < |order| && AttemptIn(x, e, order, a, k).box.Some?
    && forall j: nat :: j < k ==> AttemptIn(x, e, order, a, j).box.None?
  }
}
