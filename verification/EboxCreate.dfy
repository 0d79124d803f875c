/** Making an ebox from a template (crates/piggy-box/src/ebox.rs). */
module EboxCreate {
  import opened Base
  import opened Wire
  import opened BoxFormat
  import opened TemplateFormat
  import opened EboxFormat
  import opened BoxCrypto
  import opened EboxUnlock

  /** What is drawn at random, by where it is drawn: (config), or (config, part). */
  datatype Entropy = Entropy(
    recoveryKey: Bytes, gcmIv: Bytes, configNonce: nat -> Bytes, shareSeed: nat -> Bytes,
    ephemeral: (nat, nat) -> Bytes, boxNonce: (nat, nat) -> Bytes, boxIv: (nat, nat) -> Bytes)

  ghost predicate Proper(en: Entropy) {
    && |en.recoveryKey| == 32 && |en.gcmIv| == 12
    && (forall c :: |en.configNonce(c)| == 32)
    && (forall c, i :: |en.boxNonce(c, i)| == NONCE_LEN)
    && (forall c, i :: |en.boxIv(c, i)| == IV_LEN)
  }

  // --- ephemeral keys ---------------------------------------------------------------

  /** An ephemeral private key made so far, and its curve. */
  datatype RingKey = RingKey(curve: Curve, private: Bytes)

  /** The first key of that curve. */
  function KeyFor(ring: seq<RingKey>, curve: Curve): (k: Option<Bytes>)
    ensures k.Some? <==> exists i :: 0 <= i < |ring| && ring[i].curve == curve
  {
    if ring == [] then None
    else if ring[0].curve == curve then Some(ring[0].private)
    else
      var k := KeyFor(ring[1..], curve);
      assert k.Some? ==> exists i :: 1 <= i < |ring| && ring[i].curve == curve by {
        if k.Some? {
          var j :| 0 <= j < |ring[1..]| && ring[1..][j].curve == curve;
          assert ring[j + 1].curve == curve;
        }
      }
      assert k.None? ==> forall i :: 0 <= i < |ring| ==> ring[i].curve != curve by {
        forall i | 1 <= i < |ring| ensures k.None? ==> ring[i].curve != curve { assert ring[i] == ring[1..][i - 1]; }
      }
      k
  }

  /** A key is drawn only for a curve that has none yet. */
  function WithKey(ring: seq<RingKey>, curve: Curve, drawn: Bytes): (r: seq<RingKey>)
    ensures ring <= r && KeyFor(r, curve).Some?
  {
    if KeyFor(ring, curve).Some? then ring
    else
      assert (ring + [RingKey(curve, drawn)])[|ring|].curve == curve;
      ring + [RingKey(curve, drawn)]
  }

  /** The public halves, as the ebox lists them. */
  function Hoisted(x: Crypto, ring: seq<RingKey>): (es: seq<Ephemeral>)
    ensures |es| == |ring|
  {
    seq(|ring|, i requires 0 <= i < |ring| => Ephemeral(ring[i].curve, x.compress(ring[i].curve, x.publicKey(ring[i].curve, ring[i].private))))
  }

  // --- parts -----------------------------------------------------------------------------

  /** What a part is sealed around: its share in a RECOVERY config, the key itself otherwise. */
  function Payload(shares: Option<seq<Bytes>>, key: Bytes, i: nat): Outcome<Bytes> {
    match shares
    case None => Success(key)
    case Some(ss) => if i < |ss| then Success(ss[i]) else Failure(Panicked)
  }

  function SealedPart(
      x: Crypto, part: TplPart, private: Bytes, payload: Outcome<Bytes>, nonce: Bytes, iv: Bytes): Outcome<Part> {
    match x.parsePoint(part.curve, part.pubkey)
    case None => Failure(CryptoFailure)
    case Some(point) =>
      var data :- payload;
      var guidSlot := if part.guid.Some? then Some((part.guid.value, part.slot)) else None;
      var box := EmptyBox(part.curve).(guidSlot := guidSlot, plaintext := Some(data));
      var sealed :- Sealed(x, box, point, private, nonce, iv);
      Success(Part(part.guid, part.slot, part.name, Some((part.curve, part.pubkey)), part.cak, sealed))
  }

  /** The first `n` parts of config `c`, and the ring once they are made. */
  function MakeParts(
      x: Crypto, en: Entropy, parts: seq<TplPart>, n: nat, c: nat, shares: Option<seq<Bytes>>, key: Bytes,
      ring: seq<RingKey>)
      : (r: Outcome<(seq<RingKey>, seq<Part>)>)
    requires n <= |parts|
    ensures r.Success? ==> |r.value.1| == n && ring <= r.value.0
  {
    if n == 0 then Success((ring, []))
    else
      var before :- MakeParts(x, en, parts, n - 1, c, shares, key, ring);
      var part := parts[n - 1];
      var ring' := WithKey(before.0, part.curve, en.ephemeral(c, n - 1));
      var made :- SealedPart(x, part, KeyFor(ring', part.curve).value, Payload(shares, key, n - 1),
                             en.boxNonce(c, n - 1), en.boxIv(c, n - 1));
      Success((ring', before.1 + [made]))
  }

  // --- configs -----------------------------------------------------------------------------

  /** The secret a RECOVERY config shares out: the recovery key under the config's nonce. */
  function ConfigShares(x: Crypto, en: Entropy, config: TplConfig, c: nat): Option<seq<Bytes>>
    requires |en.recoveryKey| == |en.configNonce(c)|
  {
    if config.kind == Recovery
    then Some(x.deal(config.n, Xor(en.configNonce(c), en.recoveryKey), en.shareSeed(c), |config.parts| % 256))
    else None
  }

  function ConfigNonce(en: Entropy, config: TplConfig, c: nat): Bytes {
    if config.kind == Recovery then en.configNonce(c) else []
  }

  function MakeConfigs(
      x: Crypto, en: Entropy, configs: seq<TplConfig>, n: nat, key: Bytes): (r: Outcome<(seq<RingKey>, seq<Config>)>)
    requires n <= |configs| && forall c :: |en.configNonce(c)| == |en.recoveryKey|
    ensures r.Success? ==> |r.value.1| == n
  {
    if n == 0 then Success(([], []))
    else
      var before :- MakeConfigs(x, en, configs, n - 1, key);
      var config := configs[n - 1];
      var made :- MakeParts(x, en, config.parts, |config.parts|, n - 1, ConfigShares(x, en, config, n - 1), key, before.0);
      Success((made.0, before.1 + [Config(config.kind, config.n, ConfigNonce(en, config, n - 1), made.1)]))
  }

  // --- the ebox --------------------------------------------------------------------------------

  const EBOX_VERSION: Byte := 3

  /** aes256-gcm */
  function RecoveryCipher(): Bytes { [0x61, 0x65, 0x73, 0x32, 0x35, 0x36, 0x2D, 0x67, 0x63, 0x6D] }

  lemma RecoveryCipherIsText()
    ensures Utf8(RecoveryCipher()) && FitsCstring8(RecoveryCipher())
  {
    hide Utf8;
    AsciiIsUtf8(RecoveryCipher());
  }

  function RecoveryPlain(key: Bytes): Outcome<Bytes> { Then(Success([RECOV_KEY]), String8(key)) }

  function Create(x: Crypto, en: Entropy, tpl: Template, key: Bytes, kind: EboxType): Outcome<Ebox>
    requires forall c :: |en.configNonce(c)| == |en.recoveryKey|
  {
    RecoveryCipherIsText();
    var plain :- RecoveryPlain(key);
    var made :- MakeConfigs(x, en, tpl.configs, |tpl.configs|, key);
    Success(Ebox(EBOX_VERSION, kind, RecoveryCipher(), en.gcmIv, x.gcmSeal(en.recoveryKey, en.gcmIv, plain),
                 Hoisted(x, made.0), made.1, None))
  }

  // --- every part is sealed under the one key of its curve ----------------------------------------

  lemma {:induction false} KeyForKept(ring: seq<RingKey>, more: seq<RingKey>, curve: Curve)
    requires ring <= more && KeyFor(ring, curve).Some?
    ensures KeyFor(more, curve) == KeyFor(ring, curve)
  {
    if ring[0].curve != curve {
      assert ring[1..] <= more[1..];
      KeyForKept(ring[1..], more[1..], curve);
    }
  }

  /** Part `i` of config `c` is what its template part asks for, sealed under its curve's one key. */
  ghost predicate MadeWith(
      x: Crypto, en: Entropy, ring: seq<RingKey>, part: TplPart, c: nat, i: nat, payload: Outcome<Bytes>, made: Part)
  {
    && KeyFor(ring, part.curve).Some?
    && SealedPart(x, part, KeyFor(ring, part.curve).value, payload, en.boxNonce(c, i), en.boxIv(c, i)) == Success(made)
  }

  lemma MadeWithMore(
      x: Crypto, en: Entropy, ring: seq<RingKey>, more: seq<RingKey>, part: TplPart, c: nat, i: nat,
      payload: Outcome<Bytes>, made: Part)
    requires MadeWith(x, en, ring, part, c, i, payload, made) && ring <= more
    ensures MadeWith(x, en, more, part, c, i, payload, made)
  {
    hide SealedPart;
    KeyForKept(ring, more, part.curve);
  }

  ghost predicate AllMade(
      x: Crypto, en: Entropy, ring: seq<RingKey>, parts: seq<TplPart>, c: nat, shares: Option<seq<Bytes>>, key: Bytes, made: seq<Part>)
  {
    |made| <= |parts| && forall i :: 0 <= i < |made| ==> MadeWith(x, en, ring, parts[i], c, i, Payload(shares, key, i), made[i])
  }

  lemma AllMadeMore(
      x: Crypto, en: Entropy, ring: seq<RingKey>, more: seq<RingKey>, parts: seq<TplPart>, c: nat,
      shares: Option<seq<Bytes>>, key: Bytes, made: seq<Part>)
    requires AllMade(x, en, ring, parts, c, shares, key, made) && ring <= more
    ensures AllMade(x, en, more, parts, c, shares, key, made)
  {
    hide MadeWith, Payload;
    forall i | 0 <= i < |made| ensures MadeWith(x, en, more, parts[i], c, i, Payload(shares, key, i), made[i]) {
      MadeWithMore(x, en, ring, more, parts[i], c, i, Payload(shares, key, i), made[i]);
    }
  }

  lemma AllMadeOneMore(
      x: Crypto, en: Entropy, ring: seq<RingKey>, parts: seq<TplPart>, c: nat, shares: Option<seq<Bytes>>,
      key: Bytes, made: seq<Part>, next: Part)
    requires AllMade(x, en, ring, parts, c, shares, key, made) && |made| < |parts|
    requires MadeWith(x, en, ring, parts[|made|], c, |made|, Payload(shares, key, |made|), next)
    ensures AllMade(x, en, ring, parts, c, shares, key, made + [next])
  {
    hide MadeWith, Payload;
  }

  predicate OnePerCurve(ring: seq<RingKey>) { forall i, j :: 0 <= i < j < |ring| ==> ring[i].curve != ring[j].curve }

  lemma {:induction false} PartsAreMade(
      x: Crypto, en: Entropy, parts: seq<TplPart>, n: nat, c: nat, shares: Option<seq<Bytes>>, key: Bytes, ring: seq<RingKey>)
    requires n <= |parts| && OnePerCurve(ring) && MakeParts(x, en, parts, n, c, shares, key, ring).Success?
    ensures var (ring', made) := MakeParts(x, en, parts, n, c, shares, key, ring).value;
            OnePerCurve(ring') && AllMade(x, en, ring', parts, c, shares, key, made)
  {
    hide SealedPart, Payload, MadeWith, WithKey, KeyFor;
    if n > 0 {
      hide AllMade, OnePerCurve;
      PartsAreMade(x, en, parts, n - 1, c, shares, key, ring);
      PartMadeNext(x, en, parts, n, c, shares, key, ring);
    }
  }

  lemma OnePerCurveKept(ring: seq<RingKey>, curve: Curve, drawn: Bytes)
    requires OnePerCurve(ring)
    ensures OnePerCurve(WithKey(ring, curve, drawn))
  {
  }

  lemma PartMadeNext(
      x: Crypto, en: Entropy, parts: seq<TplPart>, n: nat, c: nat, shares: Option<seq<Bytes>>, key: Bytes, ring: seq<RingKey>)
    requires 0 < n <= |parts| && MakeParts(x, en, parts, n, c, shares, key, ring).Success?
    requires MakeParts(x, en, parts, n - 1, c, shares, key, ring).Success?
    requires var (before, made) := MakeParts(x, en, parts, n - 1, c, shares, key, ring).value;
             OnePerCurve(before) && AllMade(x, en, before, parts, c, shares, key, made)
    ensures var (ring', made) := MakeParts(x, en, parts, n, c, shares, key, ring).value;
            OnePerCurve(ring') && AllMade(x, en, ring', parts, c, shares, key, made)
  {
    hide SealedPart, Payload, AllMade, WithKey, KeyFor, OnePerCurve;
    var (before, made) := MakeParts(x, en, parts, n - 1, c, shares, key, ring).value;
    var ring' := WithKey(before, parts[n - 1].curve, en.ephemeral(c, n - 1));
    OnePerCurveKept(before, parts[n - 1].curve, en.ephemeral(c, n - 1));
    AllMadeMore(x, en, before, ring', parts, c, shares, key, made);
    AllMadeOneMore(x, en, ring', parts, c, shares, key, made, MakeParts(x, en, parts, n, c, shares, key, ring).value.1[n - 1]);
  }

  /** Config `c` is what its template config asks for. */
  ghost predicate ConfigMade(
      x: Crypto, en: Entropy, ring: seq<RingKey>, config: TplConfig, c: nat, key: Bytes, made: Config)
    requires |en.configNonce(c)| == |en.recoveryKey|
  {
    && made.kind == config.kind && made.n == config.n && made.nonce == ConfigNonce(en, config, c)
    && |made.parts| == |config.parts|
    && AllMade(x, en, ring, config.parts, c, ConfigShares(x, en, config, c), key, made.parts)
  }

  ghost predicate ConfigsMade(
      x: Crypto, en: Entropy, ring: seq<RingKey>, configs: seq<TplConfig>, key: Bytes, made: seq<Config>)
    requires forall c :: |en.configNonce(c)| == |en.recoveryKey|
  {
    |made| <= |configs| && forall c :: 0 <= c < |made| ==> ConfigMade(x, en, ring, configs[c], c, key, made[c])
  }

  lemma ConfigsMadeMore(
      x: Crypto, en: Entropy, ring: seq<RingKey>, more: seq<RingKey>, configs: seq<TplConfig>, key: Bytes,
      made: seq<Config>)
    requires forall c :: |en.configNonce(c)| == |en.recoveryKey|
    requires ConfigsMade(x, en, ring, configs, key, made) && ring <= more
    ensures ConfigsMade(x, en, more, configs, key, made)
  {
    hide AllMade, ConfigShares;
    forall c | 0 <= c < |made| ensures ConfigMade(x, en, more, configs[c], c, key, made[c]) {
      AllMadeMore(x, en, ring, more, configs[c].parts, c, ConfigShares(x, en, configs[c], c), key, made[c].parts);
    }
  }

  lemma {:induction false} ConfigsAreMade(x: Crypto, en: Entropy, configs: seq<TplConfig>, n: nat, key: Bytes)
    requires n <= |configs| && (forall c :: |en.configNonce(c)| == |en.recoveryKey|) && MakeConfigs(x, en, configs, n, key).Success?
    ensures var (ring, made) := MakeConfigs(x, en, configs, n, key).value;
            OnePerCurve(ring) && ConfigsMade(x, en, ring, configs, key, made)
  {
    if n > 0 {
      ConfigsAreMade(x, en, configs, n - 1, key);
      ConfigMadeNext(x, en, configs, n, key);
    }
  }

  lemma ConfigMadeNext(x: Crypto, en: Entropy, configs: seq<TplConfig>, n: nat, key: Bytes)
    requires 0 < n <= |configs| && (forall c :: |en.configNonce(c)| == |en.recoveryKey|)
    requires MakeConfigs(x, en, configs, n, key).Success? && MakeConfigs(x, en, configs, n - 1, key).Success?
    requires var (before, made) := MakeConfigs(x, en, configs, n - 1, key).value;
             OnePerCurve(before) && ConfigsMade(x, en, before, configs, key, made)
    ensures var (ring, made) := MakeConfigs(x, en, configs, n, key).value;
            OnePerCurve(ring) && ConfigsMade(x, en, ring, configs, key, made)
  {
    hide AllMade, MakeParts, ConfigShares, OnePerCurve;
    var (before, made) := MakeConfigs(x, en, configs, n - 1, key).value;
    var config, shares := configs[n - 1], ConfigShares(x, en, configs[n - 1], n - 1);
    PartsAreMade(x, en, config.parts, |config.parts|, n - 1, shares, key, before);
    var ring := MakeParts(x, en, config.parts, |config.parts|, n - 1, shares, key, before).value.0;
    ConfigsMadeMore(x, en, before, ring, configs, key, made);
    var all := MakeConfigs(x, en, configs, n, key).value.1;
    assert ConfigMade(x, en, ring, config, n - 1, key, all[n - 1]);
    forall c | 0 <= c < n ensures ConfigMade(x, en, ring, configs[c], c, key, all[c]) {
      if c < n - 1 { assert all[c] == made[c]; }
    }
  }

  /** The hoisted list gives a curve the public half of the one key its parts were sealed under. */
  lemma {:induction false} SharedEphemeralIsTheRingKey(x: Crypto, ring: seq<RingKey>, curve: Curve)
    requires KeyFor(ring, curve).Some?
    ensures SharedEphemeral(Hoisted(x, ring), curve) == x.compress(curve, x.publicKey(curve, KeyFor(ring, curve).value))
  {
    if ring[0].curve != curve {
      assert Hoisted(x, ring)[1..] == Hoisted(x, ring[1..]);
      SharedEphemeralIsTheRingKey(x, ring[1..], curve);
    }
  }

  /** There are two curves, so at most two ephemeral keys. */
  lemma AtMostTwoEphemerals(ring: seq<RingKey>)
    requires OnePerCurve(ring)
    ensures |ring| <= 2
  {
    if |ring| > 2 { SomeCurvesAgree(ring[0].curve, ring[1].curve, ring[2].curve); }
  }

  lemma SomeCurvesAgree(a: Curve, b: Curve, c: Curve)
    ensures a == b || b == c || a == c
  {
  }
}
