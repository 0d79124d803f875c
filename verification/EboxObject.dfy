/**
 * Eboxes as objects whose methods open boxes and set the key in place, and the loops
 * that make one (crates/piggy-box/src/ebox.rs and unlock.rs).
 */
module EboxObject {
  import opened Base
  import opened Wire
  import opened BoxFormat
  import opened TemplateFormat
  import opened EboxFormat
  import opened BoxCrypto
  import opened AgentExt
  import U = EboxUnlock
  import opened EboxCreate

  /** Whoever holds private keys: the agent, or a card. It remembers what it was asked. */
  class KeyHolder {
    const answer: (seq<U.Query>, U.Query) -> U.OracleReply
    var asked: seq<U.Query>

    function State(): U.Oracle
      reads this
    {
      U.Oracle(answer, asked)
    }

    constructor (answer: (seq<U.Query>, U.Query) -> U.OracleReply)
      ensures State() == U.Oracle(answer, [])
    {
      this.answer, asked := answer, [];
    }

    method Ecdh(self: Bytes, partner: Bytes) returns (reply: U.OracleReply)
      modifies this
      ensures reply == answer(old(asked), U.Query(self, partner)) && State() == U.Asked(old(State()), U.Query(self, partner))
    {
      reply := answer(asked, U.Query(self, partner));
      asked := asked + [U.Query(self, partner)];
    }
  }

  function StateOf(holder: KeyHolder?): Option<U.Oracle>
    reads holder
  {
    if holder == null then None else Some(holder.State())
  }

  /** Only `configs` (the boxes in them) and `key` ever change; the rest of the ebox is `header`. */
  class EboxObject {
    const crypto: Crypto
    const header: Ebox
    var configs: seq<Config>
    var key: Option<Bytes>

    function State(): Ebox
      reads this
    {
      header.(configs := configs, key := key)
    }

    constructor (crypto: Crypto, value: Ebox)
      ensures this.crypto == crypto && State() == value
    {
      this.crypto, header, configs, key := crypto, value, value.configs, value.key;
    }

    /** The first part with opened data provides the key. */
    method Unlock(idx: nat) returns (result: Outcome<()>)
      requires idx < |configs|
      modifies this
      ensures (State(), result) == U.AfterUnlock(old(State()), idx)
    {
      if key.Some? { return Failure(AlreadyUnlocked); }
      var parts := configs[idx].parts;
      for i := 0 to |parts|
        invariant configs == old(configs) && key == old(key)
        invariant forall j :: 0 <= j < i ==> parts[j].box.plaintext.None?
      {
        if parts[i].box.plaintext.Some? {
          FirstOpenIs(parts, i);
          key := parts[i].box.plaintext;
          configs := configs[idx := configs[idx].(parts := parts[i := U.Taken(parts[i])])];
          return Success(());
        }
      }
      FirstOpenIs(parts, |parts|);
      return Failure(UnlockFailed(None));
    }

    /** One oracle over one config: parts that fail are passed over, the first that opens ends the loop. */
    method TryUnlockWithOracle(idx: nat, oracle: KeyHolder) returns (result: Outcome<()>)
      requires idx < |configs|
      modifies this, oracle
      ensures (State(), oracle.State(), result) == U.TryConfig(crypto, old(State()), idx, old(oracle.State()))
    {
      hide U.PartQuery, U.AfterUnlock;
      ghost var start := configs[idx].parts;
      var anyOpened := false;
      var reason: Option<Reason> := None;
      var i := 0;
      while i < |configs[idx].parts| && !anyOpened
        invariant idx < |configs| && i <= |configs[idx].parts| == |start| && key == old(key)
        invariant configs == old(configs)[idx := old(configs)[idx].(parts := configs[idx].parts)]
        invariant !anyOpened ==> configs[idx].parts == start
        invariant U.TryParts(crypto, header.ephemerals, start, 0, old(oracle.State()), None) ==
                  if anyOpened then U.TriedParts(oracle.State(), configs[idx].parts, true, reason)
                  else U.TryParts(crypto, header.ephemerals, start, i, oracle.State(), reason)
        decreases |start| - i, !anyOpened
      {
        var part := configs[idx].parts[i];
        var box, why := TryPart(part.box, oracle);
        if box.Some? {
          configs := configs[idx := configs[idx].(parts := configs[idx].parts[i := part.(box := box.value)])];
          anyOpened := true;
        } else {
          reason := U.Later(reason, why);
          i := i + 1;
        }
      }
      if !anyOpened { return Failure(UnlockFailed(reason)); }
      result := Unlock(idx);
    }

    method TryPart(box: PivBox, oracle: KeyHolder) returns (after: Option<PivBox>, reason: Option<Reason>)
      modifies oracle
      ensures U.Tried(oracle.State(), after, reason) == U.TryPart(crypto, header.ephemerals, box, old(oracle.State()))
    {
      hide U.SharedEphemeral, U.Decompress, Opened, PointBlob;
      var curve := box.fields.suite.curve;
      var ephemeral := box.ephemeral;
      if ephemeral == [] { ephemeral := U.SharedEphemeral(header.ephemerals, curve); }
      if ephemeral == [] || box.fields.suite.recipient == [] { return None, None; }
      var self := U.Decompress(crypto, curve, box.fields.suite.recipient);
      if self.None? { return None, None; }
      var partner := U.Decompress(crypto, curve, ephemeral);
      if partner.None? { return None, None; }
      var selfBlob := EcPointToSshPubkeyBlob(curve, self.value);
      var partnerBlob := EcPointToSshPubkeyBlob(curve, partner.value);
      var reply := oracle.Ecdh(selfBlob, partnerBlob);
      match reply
      case NoKey => return None, None;
      case OracleFailure(text) => return None, Some(OracleSaid(text));
      case Secret(secret) =>
        var result := Opened(crypto, box, secret);
        if result.Failure? { return None, Some(OpenFailed(result.error)); }
        return Some(result.value), None;
    }

    /** Each PRIMARY config in turn, the agent before the card. */
    method UnlockEbox(agent: KeyHolder?, card: KeyHolder?) returns (result: Outcome<()>)
      requires agent == null || agent != card
      modifies this, agent, card
      ensures var s := U.Unlock(crypto, old(State()), old(StateOf(agent)), old(StateOf(card)));
              State() == s.ebox && StateOf(agent) == s.agent && StateOf(card) == s.card && result == s.result
    {
      hide U.TryConfig, U.InitialReason;
      var reason := U.InitialReason(State());
      ghost var s := U.Search(State(), StateOf(agent), StateOf(card), reason, Failure(UnlockFailed(None)));
      ghost var start := s;
      for idx := 0 to |configs|
        invariant |configs| == |old(configs)| && s.result.Failure?
        invariant s.ebox == State() && s.agent == StateOf(agent) && s.card == StateOf(card) && s.reason == reason
        invariant U.SearchFrom(crypto, start, 0) == U.SearchFrom(crypto, s, idx)
      {
        if configs[idx].kind == Primary {
          ghost var next := U.SearchConfig(crypto, s, idx);
          if agent != null {
            var r := TryUnlockWithOracle(idx, agent);
            if r.Success? { return r; }
            reason := U.Noted(reason, r);
          }
          if card != null {
            var r := TryUnlockWithOracle(idx, card);
            if r.Success? { return r; }
            reason := U.Noted(reason, r);
          }
          s := next;
        }
      }
      return Failure(UnlockFailed(reason));
    }

    /** Combine the opened shares, unmask the recovery key, open the recovery box. */
    method Recover(idx: nat) returns (result: Outcome<()>)
      requires idx < |configs|
      modifies this
      ensures (State(), result) == U.AfterRecover(crypto, old(State()), idx)
    {
      if key.Some? { return Failure(AlreadyUnlocked); }
      var n, nonce := configs[idx].n, configs[idx].nonce;
      var shares := TakeShares(idx);
      if |shares| < n { return Failure(ThresholdNotMet(|shares|, n)); }
      var configKey := crypto.combine(n, shares);
      if configKey.None? { return Failure(CryptoFailure); }
      if |nonce| != |configKey.value| { return Failure(CryptoFailure); }
      var recoveryKey := XorBytes(configKey.value, nonce);
      if |header.recoveryEnc| < 16 { return Failure(CryptoFailure); }
      var plain := crypto.gcmOpen(recoveryKey, header.recoveryIv, header.recoveryEnc);
      if plain.None? { return Failure(CryptoFailure); }
      var found :- FindRecoveryKey(plain.value);
      key := Some(found);
      return Success(());
    }

    /** The data leaves every opened part; what parses as a share is kept. */
    method TakeShares(idx: nat) returns (shares: seq<Bytes>)
      requires idx < |configs|
      modifies `configs
      ensures shares == U.SharesAmong(crypto, U.OpenData(old(configs)[idx].parts))
      ensures configs == old(configs)[idx := old(configs)[idx].(parts := U.TakenParts(old(configs)[idx].parts))]
    {
      hide U.TakenParts, U.OpenData, U.SharesAmong;
      var parts := configs[idx].parts;
      shares := [];
      NothingTaken(crypto, parts);
      assert configs[idx := configs[idx].(parts := parts)] == configs;
      for i := 0 to |parts|
        invariant configs == old(configs)[idx := old(configs)[idx].(parts := TakenUpTo(parts, i))]
        invariant shares == U.SharesAmong(crypto, U.OpenData(parts[..i]))
      {
        OneMoreTaken(crypto, parts, i);
        var part := configs[idx].parts[i];
        if part.box.plaintext.Some? {
          configs := configs[idx := configs[idx].(parts := configs[idx].parts[i := U.Taken(part)])];
          var data := part.box.plaintext.value;
          if crypto.isShare(data) { shares := shares + [data]; }
        }
      }
      AllTaken(parts);
      assert parts[..|parts|] == parts;
    }
  }

  /** The parts once the data of the first `i` has been taken. */
  function TakenUpTo(parts: seq<Part>, i: nat): (r: seq<Part>)
    ensures |r| == |parts|
  {
    seq(|parts|, j requires 0 <= j < |parts| => if j < i then U.Taken(parts[j]) else parts[j])
  }

  lemma NothingTaken(x: Crypto, parts: seq<Part>)
    ensures TakenUpTo(parts, 0) == parts && U.SharesAmong(x, U.OpenData(parts[..0])) == []
  {
  }

  lemma AllTaken(parts: seq<Part>)
    ensures TakenUpTo(parts, |parts|) == U.TakenParts(parts)
  {
  }

  lemma OneMoreTaken(x: Crypto, parts: seq<Part>, i: nat)
    requires i < |parts|
    ensures TakenUpTo(parts, i)[i] == parts[i]
    ensures TakenUpTo(parts, i + 1) == if parts[i].box.plaintext.Some? then TakenUpTo(parts, i)[i := U.Taken(parts[i])] else TakenUpTo(parts, i)
    ensures U.SharesAmong(x, U.OpenData(parts[..i + 1])) ==
            U.SharesAmong(x, U.OpenData(parts[..i])) +
            (if parts[i].box.plaintext.Some? && x.isShare(parts[i].box.plaintext.value) then [parts[i].box.plaintext.value] else [])
  {
    assert parts[..i + 1][..i] == parts[..i];
    var data := U.OpenData(parts[..i]);
    if parts[i].box.plaintext.Some? {
      assert U.OpenData(parts[..i + 1]) == data + [parts[i].box.plaintext.value];
      assert (data + [parts[i].box.plaintext.value])[..|data|] == data;
    } else {
      assert data + [] == data;
    }
  }

  lemma {:induction false} FirstOpenIs(parts: seq<Part>, i: nat)
    requires i <= |parts| && forall j :: 0 <= j < i ==> parts[j].box.plaintext.None?
    requires i < |parts| ==> parts[i].box.plaintext.Some?
    ensures U.FirstOpen(parts) == i
  {
    var k := U.FirstOpen(parts);
    assert k < |parts| ==> parts[k].box.plaintext.Some?;
  }

  method XorBytes(a: Bytes, b: Bytes) returns (x: Bytes)
    requires |a| == |b|
    ensures x == Xor(a, b)
  {
    x := [];
    for i := 0 to |a|
      invariant |x| == i && forall j :: 0 <= j < i ==> x[j] == XorByte(a[j], b[j])
    {
      x := x + [XorByte(a[i], b[i])];
    }
  }

  /** Tagged strings until the key is found or the box ends. */
  method FindRecoveryKey(plain: Bytes) returns (result: Outcome<Bytes>)
    ensures result == U.RecoveredKey(plain)
  {
    var r := new WireReader(plain);
    while true
      invariant r.Valid() && fresh(r) && U.RecoveredKey(plain) == U.RecoveredKey(r.Rest())
      decreases |r.Rest()|
    {
      var tag :- r.ReadU8();
      var data :- r.ReadString8();
      if tag == U.RECOV_KEY { return Success(data); }
      if r.pos == |plain| { break; }
    }
    return Failure(CryptoFailure);
  }

  // --- making an ebox -----------------------------------------------------------------

  /** The key of that curve, drawn and listed only if there is none yet. */
  method GetOrCreateEphemeral(crypto: Crypto, curve: Curve, drawn: Bytes, keys: seq<Ephemeral>, ring: seq<RingKey>)
      returns (keys': seq<Ephemeral>, ring': seq<RingKey>, private: Bytes)
    requires keys == Hoisted(crypto, ring)
    ensures ring' == WithKey(ring, curve, drawn) && keys' == Hoisted(crypto, ring') && Some(private) == KeyFor(ring', curve)
  {
    var found := KeyFor(ring, curve);
    if found.Some? { return keys, ring, found.value; }
    keys' := keys + [Ephemeral(curve, crypto.compress(curve, crypto.publicKey(curve, drawn)))];
    ring' := ring + [RingKey(curve, drawn)];
    private := drawn;
    LastKey(ring, curve, drawn);
  }

  lemma {:induction false} LastKey(ring: seq<RingKey>, curve: Curve, drawn: Bytes)
    requires KeyFor(ring, curve).None?
    ensures KeyFor(ring + [RingKey(curve, drawn)], curve) == Some(drawn)
  {
    if ring != [] {
      assert (ring + [RingKey(curve, drawn)])[1..] == ring[1..] + [RingKey(curve, drawn)];
      LastKey(ring[1..], curve, drawn);
    }
  }

  lemma {:induction false} PartsStop(
      x: Crypto, en: Entropy, parts: seq<TplPart>, k: nat, n: nat, c: nat, shares: Option<seq<Bytes>>, key: Bytes, ring: seq<RingKey>)
    requires k <= n <= |parts| && MakeParts(x, en, parts, k, c, shares, key, ring).Failure?
    ensures MakeParts(x, en, parts, n, c, shares, key, ring) == Failure(MakeParts(x, en, parts, k, c, shares, key, ring).error)
  {
    hide SealedPart, WithKey, KeyFor, Payload;
    if k < n { PartsStop(x, en, parts, k, n - 1, c, shares, key, ring); }
  }

  lemma {:induction false} ConfigsStop(x: Crypto, en: Entropy, configs: seq<TplConfig>, k: nat, n: nat, key: Bytes)
    requires k <= n <= |configs| && (forall c :: |en.configNonce(c)| == |en.recoveryKey|) && MakeConfigs(x, en, configs, k, key).Failure?
    ensures MakeConfigs(x, en, configs, n, key) == Failure(MakeConfigs(x, en, configs, k, key).error)
  {
    hide MakeParts, ConfigShares;
    if k < n { ConfigsStop(x, en, configs, k, n - 1, key); }
  }

  method CreateParts(
      crypto: Crypto, en: Entropy, parts: seq<TplPart>, c: nat, shares: Option<seq<Bytes>>, key: Bytes, keys: seq<Ephemeral>, ring: seq<RingKey>)
      returns (result: Outcome<seq<Part>>, keys': seq<Ephemeral>, ring': seq<RingKey>)
    requires keys == Hoisted(crypto, ring)
    ensures var expected := MakeParts(crypto, en, parts, |parts|, c, shares, key, ring);
            if expected.Success? then result == Success(expected.value.1) && ring' == expected.value.0 && keys' == Hoisted(crypto, ring')
            else result == Failure(expected.error)
  {
    hide SealedPart, WithKey, KeyFor, Payload, Hoisted;
    keys', ring' := keys, ring;
    var made: seq<Part> := [];
    for i := 0 to |parts|
      invariant keys' == Hoisted(crypto, ring')
      invariant MakeParts(crypto, en, parts, i, c, shares, key, ring) == Success((ring', made))
    {
      var private: Bytes;
      keys', ring', private := GetOrCreateEphemeral(crypto, parts[i].curve, en.ephemeral(c, i), keys', ring');
      var part := SealedPart(crypto, parts[i], private, Payload(shares, key, i), en.boxNonce(c, i), en.boxIv(c, i));
      if part.Failure? {
        PartsStop(crypto, en, parts, i + 1, |parts|, c, shares, key, ring);
        return Failure(part.error), keys', ring';
      }
      made := made + [part.value];
    }
    result := Success(made);
  }

  method CreateEbox(
      crypto: Crypto, en: Entropy, tpl: Template, key: Bytes, kind: EboxType) returns (result: Outcome<Ebox>)
    requires forall c :: |en.configNonce(c)| == |en.recoveryKey|
    ensures result == Create(crypto, en, tpl, key, kind)
  {
    hide MakeParts, Hoisted, String8;
    var w := new WireWriter();
    w.PutU8(U.RECOV_KEY);
    var _ :- w.PutString8(key);
    assert w.buf == RecoveryPlain(key).value;
    var recoveryEnc := crypto.gcmSeal(en.recoveryKey, en.gcmIv, w.buf);
    var keys: seq<Ephemeral>, ring: seq<RingKey>, configs: seq<Config> := [], [], [];
    NoneHoisted(crypto);
    for c := 0 to |tpl.configs|
      invariant keys == Hoisted(crypto, ring)
      invariant MakeConfigs(crypto, en, tpl.configs, c, key) == Success((ring, configs))
    {
      var config := tpl.configs[c];
      var nonce: Bytes, shares: Option<seq<Bytes>> := [], None;
      if config.kind == Recovery {
        nonce := en.configNonce(c);
        var configKey := XorBytes(nonce, en.recoveryKey);
        shares := Some(crypto.deal(config.n, configKey, en.shareSeed(c), |config.parts| % 256));
      }
      var parts: Outcome<seq<Part>>;
      ghost var before := ring;
      parts, keys, ring := CreateParts(crypto, en, config.parts, c, shares, key, keys, ring);
      if parts.Failure? {
        ConfigsStop(crypto, en, tpl.configs, c + 1, |tpl.configs|, key);
        return Failure(parts.error);
      }
      configs := configs + [Config(config.kind, config.n, nonce, parts.value)];
    }
    RecoveryCipherIsText();
    return Success(Ebox(EBOX_VERSION, kind, RecoveryCipher(), en.gcmIv, recoveryEnc, keys, configs, None));
  }

  lemma NoneHoisted(crypto: Crypto)
    ensures Hoisted(crypto, []) == []
  {
  }
}
