/**
 * What an ebox is for: any one PRIMARY recipient gets the key back through the wire,
 * and any `n` RECOVERY recipients do (crates/piggy-box/src/ebox.rs and unlock.rs).
 */
module EboxTheorems {
  import opened Base
  import opened Wire
  import opened BoxFormat
  import opened PartFields
  import opened Many
  import opened TemplateFormat
  import opened EboxFormat
  import opened BoxCrypto
  import opened AgentExt
  import opened EboxUnlock
  import opened EboxSearch
  import opened EboxCreate

  // --- a created ebox on the wire -------------------------------------------------

  /** What sealing leaves in a part. */
  lemma SealedPartShape(x: Crypto, part: TplPart, private: Bytes, payload: Outcome<Bytes>, nonce: Bytes, iv: Bytes)
    requires SealedPart(x, part, private, payload, nonce, iv).Success? && LawfulCiphers(x) && LawfulPoints(x)
    ensures payload.Success? && x.parsePoint(part.curve, part.pubkey).Some?
    ensures var made := SealedPart(x, part, private, payload, nonce, iv).value; var f := made.box.fields;
            && made.name == part.name && made.cak == part.cak
            && f.suite.cipher == DefaultCipher() && f.suite.kdf == DefaultKdf() && f.suite.nonce == nonce && f.iv == iv
            && |f.suite.recipient| <= 49 && |f.ciphertext| == |Pkcs7Pad(payload.value, 16)| + 16
  {
    hide Pkcs7Pad, DefaultCipher, DefaultKdf, Utf8;
  }

  /** A payload and a template part that fit make a part that fits. */
  lemma MadePartFits(
      x: Crypto, en: Entropy, ring: seq<RingKey>, part: TplPart, c: nat, i: nat, payload: Outcome<Bytes>, made: Part)
    requires Lawful(x) && Proper(en) && MadeWith(x, en, ring, part, c, i, payload, made) && DescriptionFits(part)
    requires payload.Success? ==> |payload.value| <= 255
    ensures PartFits(made)
  {
    hide LawfulPoints, LawfulCiphers, LawfulSharing, LawfulAgreement, Pkcs7Pad, SealedPart, KeyFor, DefaultCipher, DefaultKdf, Utf8;
    DefaultsAreText();
    SealedPartShape(x, part, KeyFor(ring, part.curve).value, payload, en.boxNonce(c, i), en.boxIv(c, i));
    PadsByABlock(payload.value);
  }

  lemma PadsByABlock(data: Bytes)
    ensures |Pkcs7Pad(data, 16)| <= |data| + 16
  {
  }

  lemma PayloadsAreShort(x: Crypto, en: Entropy, config: TplConfig, c: nat, key: Bytes, i: nat)
    requires Lawful(x) && Proper(en) && |key| <= 255 && i < |config.parts| < 256
    ensures var payload := Payload(ConfigShares(x, en, config, c), key, i); payload.Success? && |payload.value| <= 255
  {
    hide LawfulPoints, LawfulAgreement, LawfulCiphers;
    if config.kind == Recovery {
      var secret := Xor(en.configNonce(c), en.recoveryKey);
      assert x.isShare(x.deal(config.n, secret, en.shareSeed(c), |config.parts| % 256)[i]);
    }
  }

  lemma MadeConfigFits(x: Crypto, en: Entropy, ring: seq<RingKey>, config: TplConfig, c: nat, key: Bytes, made: Config)
    requires Lawful(x) && Proper(en) && ConfigMade(x, en, ring, config, c, key, made) && ConfigLengthsFit(config) && |key| <= 255
    ensures ConfigFits(made)
  {
    hide Lawful, MadeWith, PartFits, DescriptionFits, ConfigShares, Payload;
    forall i | 0 <= i < |made.parts| ensures PartFits(made.parts[i]) {
      PayloadsAreShort(x, en, config, c, key, i);
      MadePartFits(x, en, ring, config.parts[i], c, i, Payload(ConfigShares(x, en, config, c), key, i), made.parts[i]);
    }
  }

  /** The whole recovery box goes into one `string8`: two bytes of framing, the key, and a 16-byte tag. */
  const LONGEST_KEY: nat := 237

  lemma RecoveryBoxLength(x: Crypto, en: Entropy, tpl: Template, key: Bytes, kind: EboxType)
    requires Lawful(x) && Proper(en) && Create(x, en, tpl, key, kind).Success?
    ensures |key| <= 255
    ensures |Create(x, en, tpl, key, kind).value.recoveryEnc| == |key| + 18
  {
    hide LawfulPoints, LawfulAgreement, LawfulSharing, MakeConfigs;
  }

  /** A ring for the created ebox: what it hoists, and what its parts are sealed under. */
  lemma CreatedIsMade(x: Crypto, en: Entropy, tpl: Template, key: Bytes, kind: EboxType) returns (ring: seq<RingKey>)
    requires Proper(en) && Create(x, en, tpl, key, kind).Success?
    ensures var e := Create(x, en, tpl, key, kind).value;
            && OnePerCurve(ring) && e.ephemerals == Hoisted(x, ring)
            && |e.configs| == |tpl.configs| && ConfigsMade(x, en, ring, tpl.configs, key, e.configs)
  {
    hide ConfigsMade, OnePerCurve;
    ConfigsAreMade(x, en, tpl.configs, |tpl.configs|, key);
    ring := MakeConfigs(x, en, tpl.configs, |tpl.configs|, key).value.0;
  }

  /** The counts and descriptions an ebox takes over from its template fit their fields; thresholds are not in it. */
  predicate ConfigLengthsFit(config: TplConfig) {
    |config.parts| < 256 && forall i :: 0 <= i < |config.parts| ==> DescriptionFits(config.parts[i])
  }

  predicate LengthsFit(tpl: Template) {
    |tpl.configs| < 256 && forall c :: 0 <= c < |tpl.configs| ==> ConfigLengthsFit(tpl.configs[c])
  }

  /**
   * A created ebox survives the wire exactly if its template's lengths fit and its key is at
   * most 237 bytes long, although making one accepts keys of up to 255.
   */
  lemma CreatedEboxFitsIff(x: Crypto, en: Entropy, tpl: Template, key: Bytes, kind: EboxType)
    requires Lawful(x) && Proper(en) && kind != TemplateType && Create(x, en, tpl, key, kind).Success?
    ensures EboxFits(Create(x, en, tpl, key, kind).value) <==> |key| <= LONGEST_KEY && LengthsFit(tpl)
  {
    hide ConfigFits, Create, Lawful, EphemeralsFit, ConfigsMade, OnePerCurve, ConfigLengthsFit;
    var e := Create(x, en, tpl, key, kind).value;
    RecoveryBoxLength(x, en, tpl, key, kind);
    var ring := CreatedIsMade(x, en, tpl, key, kind);
    if |key| <= LONGEST_KEY && LengthsFit(tpl) {
      CreatedRecoveryFits(x, en, tpl, key, kind);
      HoistedFits(x, ring);
      MadeConfigsFit(x, en, ring, tpl.configs, key, e.configs);
    } else if EboxFits(e) {
      FitConfigsWereMadeFromFit(x, en, ring, tpl.configs, key, e.configs);
    }
  }

  lemma FitConfigsWereMadeFromFit(x: Crypto, en: Entropy, ring: seq<RingKey>, configs: seq<TplConfig>, key: Bytes, made: seq<Config>)
    requires Lawful(x) && Proper(en) && ConfigsMade(x, en, ring, configs, key, made) && |made| == |configs|
    requires forall c :: 0 <= c < |made| ==> ConfigFits(made[c])
    ensures forall c :: 0 <= c < |configs| ==> ConfigLengthsFit(configs[c])
  {
    hide Lawful, MadeWith, KeyFor, FieldsFit, Payload, ConfigShares;
    forall c | 0 <= c < |configs| ensures ConfigLengthsFit(configs[c]) {
      assert ConfigMade(x, en, ring, configs[c], c, key, made[c]);
      forall i | 0 <= i < |configs[c].parts| ensures DescriptionFits(configs[c].parts[i]) {
        var part := configs[c].parts[i];
        var payload := Payload(ConfigShares(x, en, configs[c], c), key, i);
        assert MadeWith(x, en, ring, part, c, i, payload, made[c].parts[i]);
        MadeDescription(x, en, ring, part, c, i, payload, made[c].parts[i]);
        assert PartFits(made[c].parts[i]);
      }
    }
  }

  lemma MadeDescription(
      x: Crypto, en: Entropy, ring: seq<RingKey>, part: TplPart, c: nat, i: nat, payload: Outcome<Bytes>, made: Part)
    requires MadeWith(x, en, ring, part, c, i, payload, made)
    ensures made.name == part.name && made.cak == part.cak
  {
    hide KeyFor, BoxKey, Pkcs7Pad, DefaultCipher, DefaultKdf;
  }

  /**
   * Printing a created ebox of fitting lengths fails exactly if its key is longer: the recovery
   * box then outgrows its `string8`.
   */
  lemma CreatedEboxPrintsIff(x: Crypto, en: Entropy, tpl: Template, key: Bytes, kind: EboxType)
    requires Lawful(x) && Proper(en) && LengthsFit(tpl) && kind != TemplateType && Create(x, en, tpl, key, kind).Success?
    ensures var printed := PutEbox(Create(x, en, tpl, key, kind).value);
            (printed.Success? <==> |key| <= LONGEST_KEY) && (printed.Failure? ==> printed.error == TooLong)
  {
    hide Create, Lawful, LengthsFit, EboxFits, GetEbox;
    var e := Create(x, en, tpl, key, kind).value;
    RecoveryBoxLength(x, en, tpl, key, kind);
    CreatedHeader(x, en, tpl, key, kind);
    if |key| <= LONGEST_KEY {
      CreatedEboxFitsIff(x, en, tpl, key, kind);
      EboxRoundTripsIff(e, []);
    }
  }

  lemma CreatedHeader(x: Crypto, en: Entropy, tpl: Template, key: Bytes, kind: EboxType)
    requires Proper(en) && Create(x, en, tpl, key, kind).Success?
    ensures var e := Create(x, en, tpl, key, kind).value;
            e.version == EBOX_VERSION && e.kind == kind && FitsCstring8(e.recoveryCipher) && FitsString8(e.recoveryIv)
  {
    hide MakeConfigs;
    RecoveryCipherIsText();
  }

  lemma HoistedFits(x: Crypto, ring: seq<RingKey>)
    requires Lawful(x) && OnePerCurve(ring)
    ensures EphemeralsFit(Hoisted(x, ring))
  {
    hide LawfulAgreement, LawfulCiphers, LawfulSharing, OnePerCurve;
    AtMostTwoEphemerals(ring);
    forall i | 0 <= i < |ring| ensures EphemeralFits(Hoisted(x, ring)[i]) {
      assert |x.compress(ring[i].curve, x.publicKey(ring[i].curve, ring[i].private))| <= 49;
    }
  }

  lemma MadeConfigsFit(
      x: Crypto, en: Entropy, ring: seq<RingKey>, configs: seq<TplConfig>, key: Bytes, made: seq<Config>)
    requires Lawful(x) && Proper(en) && ConfigsMade(x, en, ring, configs, key, made) && |key| <= 255
    requires forall c :: 0 <= c < |configs| ==> ConfigLengthsFit(configs[c])
    ensures forall c :: 0 <= c < |made| ==> ConfigFits(made[c])
  {
    hide Lawful, ConfigMade, ConfigLengthsFit, ConfigFits;
    forall c | 0 <= c < |made| ensures ConfigFits(made[c]) {
      MadeConfigFits(x, en, ring, configs[c], c, key, made[c]);
    }
  }

  lemma CreatedRecoveryFits(x: Crypto, en: Entropy, tpl: Template, key: Bytes, kind: EboxType)
    requires Lawful(x) && Proper(en) && Create(x, en, tpl, key, kind).Success? && |key| <= LONGEST_KEY
    ensures RecoveryFits(RecoveryOf(Create(x, en, tpl, key, kind).value)) && Create(x, en, tpl, key, kind).value.kind == kind
    ensures Create(x, en, tpl, key, kind).value.version == EBOX_VERSION
  {
    hide MakeConfigs, Lawful;
    RecoveryCipherIsText();
    RecoveryBoxLength(x, en, tpl, key, kind);
  }

  // --- what a part of the arrived ebox asks and answers --------------------------------

  /** An oracle that has the private key of this point answers with the secret, whatever it was asked before. */
  ghost predicate Holds(x: Crypto, oracle: Oracle, curve: Curve, private: Bytes) {
    forall asked, b {:trigger oracle.answer(asked, Query(PointBlob(curve, x.publicKey(curve, private)), PointBlob(curve, x.publicKey(curve, b))))} ::
      oracle.answer(asked, Query(PointBlob(curve, x.publicKey(curve, private)), PointBlob(curve, x.publicKey(curve, b))))
      == Secret(x.agree(curve, private, x.publicKey(curve, b)))
  }

  /** An oracle may refuse, but a secret it gives is the one the two keys share. */
  ghost predicate Sound(x: Crypto, oracle: Oracle) {
    forall asked, curve, p, b {:trigger oracle.answer(asked, Query(PointBlob(curve, p), PointBlob(curve, x.publicKey(curve, b))))} ::
      var reply := oracle.answer(asked, Query(PointBlob(curve, p), PointBlob(curve, x.publicKey(curve, b))));
      reply.Secret? ==> reply.bytes == x.agree(curve, b, p)
  }

  /** The recipient's point, and the ephemeral private key the part was sealed under. */
  ghost predicate SealedTo(
      x: Crypto, ephemerals: seq<Ephemeral>, box: PivBox, p: Bytes, ephemeral: Bytes, payload: Bytes) {
    var curve := box.fields.suite.curve;
    && PartQuery(x, ephemerals, box) == Some(Query(PointBlob(curve, p), PointBlob(curve, x.publicKey(curve, ephemeral))))
    && Opened(x, box, x.agree(curve, ephemeral, p)) == Success(box.(plaintext := Some(payload)))
  }

  /** A sealed part, once through the wire, is looked up with the hoisted key and opens to its payload. */
  lemma ArrivedPartIsSealedTo(
      x: Crypto, en: Entropy, ring: seq<RingKey>, part: TplPart, c: nat, i: nat, payload: Outcome<Bytes>, made: Part)
    requires Lawful(x) && Proper(en) && MadeWith(x, en, ring, part, c, i, payload, made)
    ensures payload.Success? && x.parsePoint(part.curve, part.pubkey).Some? && KeyFor(ring, part.curve).Some?
    ensures NormPart(made).box.fields.suite.curve == part.curve && NormPart(made).box.plaintext.None?
    ensures SealedTo(x, Hoisted(x, ring), NormPart(made).box, x.parsePoint(part.curve, part.pubkey).value,
                     KeyFor(ring, part.curve).value, payload.value)
  {
    hide LawfulSharing, Pkcs7Pad, Unpadded, PointBlob, KeyFor, Hoisted, DefaultCipher, DefaultKdf;
    var curve, private := part.curve, KeyFor(ring, part.curve).value;
    var p := x.parsePoint(curve, part.pubkey).value;
    SharedEphemeralIsTheRingKey(x, ring, curve);
    assert x.compress(curve, p)[0] in {2, 3} && x.compress(curve, x.publicKey(curve, private))[0] in {2, 3};
    PaddingRoundTrips(payload.value, 16);
  }

  // --- any one recipient ------------------------------------------------------------------

  /** The ebox as it arrives: printed, and read back from in front of `rest`. */
  lemma CreatedEboxArrives(
      x: Crypto, en: Entropy, tpl: Template, key: Bytes, kind: EboxType, rest: Bytes) returns (ring: seq<RingKey>)
    requires Lawful(x) && Proper(en) && LengthsFit(tpl) && kind != TemplateType && |key| <= LONGEST_KEY
    requires Create(x, en, tpl, key, kind).Success?
    ensures var e := Create(x, en, tpl, key, kind).value;
            && PutEbox(e).Success? && GetEbox(PutEbox(e).value + rest) == Success((NormEbox(e), rest))
            && FreshlyParsed(NormEbox(e)) && e.ephemerals == Hoisted(x, ring)
            && |e.configs| == |tpl.configs| && ConfigsMade(x, en, ring, tpl.configs, key, e.configs)
  {
    hide PutEbox, GetEbox, Create, EboxFits, Lawful, ConfigsMade, OnePerCurve;
    var e := Create(x, en, tpl, key, kind).value;
    CreatedEboxFitsIff(x, en, tpl, key, kind);
    CreatedRecoveryFits(x, en, tpl, key, kind);
    EboxRoundTripsIff(e, rest);
    NormEboxIsFresh(e);
    ring := CreatedIsMade(x, en, tpl, key, kind);
  }

  lemma NormEboxIsFresh(e: Ebox)
    ensures FreshlyParsed(NormEbox(e))
  {
  }

  /** A sound oracle's attempt at a part either does not open it or opens it to its payload. */
  lemma SoundAttempt(
      x: Crypto, ephemerals: seq<Ephemeral>, box: PivBox, oracle: Oracle, p: Bytes, ephemeral: Bytes, payload: Bytes)
    requires Sound(x, oracle) && SealedTo(x, ephemerals, box, p, ephemeral, payload)
    ensures var t := TryPart(x, ephemerals, box, oracle); t.box.Some? ==> t.box.value.plaintext == Some(payload)
  {
    hide PartQuery, Opened, PointBlob;
  }

  /** An oracle that holds the recipient's key opens the part. */
  lemma HolderOpens(
      x: Crypto, ephemerals: seq<Ephemeral>, box: PivBox, oracle: Oracle, private: Bytes, ephemeral: Bytes,
      payload: Bytes)
    requires Lawful(x) && Holds(x, oracle, box.fields.suite.curve, private)
    requires SealedTo(x, ephemerals, box, x.publicKey(box.fields.suite.curve, private), ephemeral, payload)
    ensures TryPart(x, ephemerals, box, oracle).box.Some?
  {
    hide PartQuery, Opened, PointBlob, LawfulPoints, LawfulCiphers, LawfulSharing;
    var curve := box.fields.suite.curve;
    assert x.agree(curve, private, x.publicKey(curve, ephemeral)) == x.agree(curve, ephemeral, x.publicKey(curve, private));
  }

  /** What an oracle answers does not change with the asking, so neither does what it holds. */
  lemma {:induction false} OraclesStay(x: Crypto, e: Ebox, order: seq<Try>, a: Asking, k: nat)
    requires Possible(e, order, a) && k <= |order|
    ensures var b := AfterFirst(x, e, order, a, k);
            && (a.agent.Some? ==> b.agent.value.answer == a.agent.value.answer)
            && (a.card.Some? ==> b.card.value.answer == a.card.value.answer)
  {
    hide PartQuery, Opened;
    if k > 0 { OraclesStay(x, e, order, a, k - 1); }
  }

  lemma SameAnswersSameOracle(x: Crypto, o1: Oracle, o2: Oracle, curve: Curve, private: Bytes)
    requires o1.answer == o2.answer
    ensures Sound(x, o1) == Sound(x, o2) && Holds(x, o1, curve, private) == Holds(x, o2, curve, private)
  {
  }

  ghost predicate SoundIfAny(x: Crypto, oracle: Option<Oracle>) { oracle.Some? ==> Sound(x, oracle.value) }

  /** Whatever part opens first, it opens to the key. */
  lemma WhatOpensIsTheKey(
      x: Crypto, en: Entropy, tpl: Template, ring: seq<RingKey>, key: Bytes, e: Ebox, a: Asking, order: seq<Try>, k: nat)
    requires Lawful(x) && Proper(en) && |e.configs| == |tpl.configs| && e.ephemerals == Hoisted(x, ring)
    requires ConfigsMade(x, en, ring, tpl.configs, key, e.configs)
    requires SoundIfAny(x, a.agent) && SoundIfAny(x, a.card)
    requires order == Order(NormEbox(e), 0, a.agent.Some?, a.card.Some?) && Possible(NormEbox(e), order, a)
    requires k < |order| && AttemptIn(x, NormEbox(e), order, a, k).box.Some?
    ensures AttemptIn(x, NormEbox(e), order, a, k).box.value.plaintext == Some(key)
  {
    hide Lawful, TryPart, MadeWith, Sound, SealedTo, KeyFor, AfterFirst, AfterAttempt, Order;
    var t := order[k];
    OrderIsEveryAttemptInOrder(NormEbox(e), 0, a.agent.Some?, a.card.Some?);
    assert t in order;
    var config, made := tpl.configs[t.config], e.configs[t.config];
    assert ConfigMade(x, en, ring, config, t.config, key, made);
    assert MadeWith(x, en, ring, config.parts[t.part], t.config, t.part, Success(key), made.parts[t.part]);
    ArrivedPartIsSealedTo(x, en, ring, config.parts[t.part], t.config, t.part, Success(key), made.parts[t.part]);
    OraclesStay(x, NormEbox(e), order, a, k);
    var oracle := OracleOf(AfterFirst(x, NormEbox(e), order, a, k), t.who).value;
    SameAnswersSameOracle(x, oracle, OracleOf(a, t.who).value, NistP256, []);
    SoundAttempt(x, e.ephemerals, NormPart(made.parts[t.part]).box, oracle,
                 x.parsePoint(config.parts[t.part].curve, config.parts[t.part].pubkey).value,
                 KeyFor(ring, config.parts[t.part].curve).value, key);
  }

  /** The holder's own attempt, whenever it comes, opens its part. */
  lemma HolderSucceeds(
      x: Crypto, en: Entropy, tpl: Template, ring: seq<RingKey>, key: Bytes, e: Ebox, a: Asking, order: seq<Try>, k: nat, private: Bytes)
    requires Lawful(x) && Proper(en) && |e.configs| == |tpl.configs| && e.ephemerals == Hoisted(x, ring)
    requires ConfigsMade(x, en, ring, tpl.configs, key, e.configs)
    requires Possible(NormEbox(e), order, a) && k < |order|
    requires var t := order[k]; var part := tpl.configs[t.config].parts[t.part];
             && x.parsePoint(part.curve, part.pubkey) == Some(x.publicKey(part.curve, private))
             && Holds(x, OracleOf(a, t.who).value, part.curve, private)
    ensures AttemptIn(x, NormEbox(e), order, a, k).box.Some?
  {
    hide Lawful, TryPart, MadeWith, Holds, SealedTo, KeyFor, AfterFirst, AfterAttempt, Payload;
    var t := order[k];
    var config, made := tpl.configs[t.config], e.configs[t.config];
    var part, payload := config.parts[t.part], Payload(ConfigShares(x, en, config, t.config), key, t.part);
    assert ConfigMade(x, en, ring, config, t.config, key, made);
    assert MadeWith(x, en, ring, part, t.config, t.part, payload, made.parts[t.part]);
    ArrivedPartIsSealedTo(x, en, ring, part, t.config, t.part, payload, made.parts[t.part]);
    OraclesStay(x, NormEbox(e), order, a, k);
    var oracle := OracleOf(AfterFirst(x, NormEbox(e), order, a, k), t.who).value;
    SameAnswersSameOracle(x, oracle, OracleOf(a, t.who).value, part.curve, private);
    HolderOpens(x, e.ephemerals, NormPart(made.parts[t.part]).box, oracle, private, KeyFor(ring, part.curve).value, payload.value);
  }

  /** The oracle asked in the role of `who`. */
  function Supplied(
      agent: Option<Oracle>, card: Option<Oracle>, who: Who): Option<Oracle> { if who == Agent then agent else card }

  /**
   * Any one recipient can decrypt. Make an ebox from any template whose lengths fit and any key the
   * wire can carry, write it, read it back from in front of anything, and unlock it with sound
   * oracles of which one holds the private key of one PRIMARY part: the result is the key.
   */
  lemma AnyRecipientDecrypts(
      x: Crypto, en: Entropy, tpl: Template, key: Bytes, kind: EboxType, rest: Bytes,
      agent: Option<Oracle>, card: Option<Oracle>, c: nat, i: nat, who: Who, private: Bytes)
    requires Lawful(x) && Proper(en) && LengthsFit(tpl) && kind != TemplateType && |key| <= LONGEST_KEY
    requires Create(x, en, tpl, key, kind).Success?
    requires SoundIfAny(x, agent) && SoundIfAny(x, card)
    requires c < |tpl.configs| && tpl.configs[c].kind == Primary && i < |tpl.configs[c].parts|
    requires var part := tpl.configs[c].parts[i];
             x.parsePoint(part.curve, part.pubkey) == Some(x.publicKey(part.curve, private)) &&
             Supplied(agent, card, who).Some? && Holds(x, Supplied(agent, card, who).value, part.curve, private)
    ensures var e := Create(x, en, tpl, key, kind).value;
            && PutEbox(e).Success? && GetEbox(PutEbox(e).value + rest).Success?
            && var arrived := GetEbox(PutEbox(e).value + rest).value.0;
            && Unlock(x, arrived, agent, card).result.Success?
            && Unlock(x, arrived, agent, card).ebox == arrived.(key := Some(key))
  {
    hide Lawful, Create, PutEbox, GetEbox, SoundIfAny, Holds, Unlock, ConfigsMade, NormEbox;
    var ring := CreatedEboxArrives(x, en, tpl, key, kind, rest);
    ArrivedEboxUnlocks(x, en, tpl, ring, key, Create(x, en, tpl, key, kind).value, agent, card, c, i, who, private);
  }

  lemma ArrivedEboxUnlocks(
      x: Crypto, en: Entropy, tpl: Template, ring: seq<RingKey>, key: Bytes, e: Ebox,
      agent: Option<Oracle>, card: Option<Oracle>, c: nat, i: nat, who: Who, private: Bytes)
    requires Lawful(x) && Proper(en) && |e.configs| == |tpl.configs| && e.ephemerals == Hoisted(x, ring)
    requires ConfigsMade(x, en, ring, tpl.configs, key, e.configs) && FreshlyParsed(NormEbox(e))
    requires SoundIfAny(x, agent) && SoundIfAny(x, card)
    requires c < |tpl.configs| && tpl.configs[c].kind == Primary && i < |tpl.configs[c].parts|
    requires var part := tpl.configs[c].parts[i];
             x.parsePoint(part.curve, part.pubkey) == Some(x.publicKey(part.curve, private)) &&
             Supplied(agent, card, who).Some? && Holds(x, Supplied(agent, card, who).value, part.curve, private)
    ensures var s := Unlock(x, NormEbox(e), agent, card); s.result.Success? && s.ebox == NormEbox(e).(key := Some(key))
  {
    hide Lawful, SoundIfAny, Holds, Unlock, Order, AttemptIn, AfterFirst, AllMade, FreshlyParsed;
    var arrived := NormEbox(e);
    var a, order := Asking(agent, card, InitialReason(arrived)), Order(arrived, 0, agent.Some?, card.Some?);
    var k := SearchIsExact(x, arrived, agent, card);
    OrderIsEveryAttemptInOrder(arrived, 0, agent.Some?, card.Some?);
    assert ConfigMade(x, en, ring, tpl.configs[c], c, key, e.configs[c]);
    assert Listed(arrived, 0, agent.Some?, card.Some?, Try(c, who, i));
    var j: nat :| j < |order| && order[j] == Try(c, who, i);
    HolderSucceeds(x, en, tpl, ring, key, e, a, order, j, private);
    WhatOpensIsTheKey(x, en, tpl, ring, key, e, a, order, k);
  }
}
