/** Whoever is not a recipient cannot unlock an ebox (crates/piggy-box/src/unlock.rs and piv_box.rs). */
module EboxForeign {
  import opened Base
  import opened Wire
  import opened BoxFormat
  import opened TemplateFormat
  import opened EboxFormat
  import opened BoxCrypto
  import opened AgentExt
  import opened EboxUnlock
  import opened EboxSearch
  import opened EboxCreate
  import opened EboxTheorems

  /** An oracle whose secrets are in play, but never the one the two keys it is asked about share. */
  ghost predicate Foreign(x: Crypto, oracle: Oracle, secrets: iset<Bytes>) {
    forall asked, curve, p, b {:trigger oracle.answer(asked, Query(PointBlob(curve, p), PointBlob(curve, x.publicKey(curve, b))))} ::
      var reply := oracle.answer(asked, Query(PointBlob(curve, p), PointBlob(curve, x.publicKey(curve, b))));
      reply.Secret? ==> reply.bytes in secrets && reply.bytes != x.agree(curve, b, p)
  }

  ghost predicate ForeignIfAny(x: Crypto, oracle: Option<Oracle>, secrets: iset<Bytes>) {
    oracle.Some? ==> Foreign(x, oracle.value, secrets)
  }

  /** Every secret two keys share is in play. */
  ghost predicate AllInPlay(x: Crypto, secrets: iset<Bytes>) {
    forall curve, private, p :: x.agree(curve, private, p) in secrets
  }

  /** A sealed part, once through the wire, opens with a secret in play exactly if that is the one its keys share. */
  lemma ArrivedPartOpensIff(
      x: Crypto, en: Entropy, ring: seq<RingKey>, part: TplPart, c: nat, i: nat, payload: Outcome<Bytes>, made: Part,
      secret: Bytes, secrets: iset<Bytes>)
    requires Lawful(x) && Proper(en) && TellsApart(x, secrets) && AllInPlay(x, secrets) && secret in secrets
    requires MadeWith(x, en, ring, part, c, i, payload, made)
    ensures payload.Success? && x.parsePoint(part.curve, part.pubkey).Some? && KeyFor(ring, part.curve).Some?
    ensures var right := x.agree(part.curve, KeyFor(ring, part.curve).value, x.parsePoint(part.curve, part.pubkey).value);
            var box := NormPart(made).box;
            Opened(x, box, secret) == if secret == right then Success(box.(plaintext := Some(payload.value))) else Failure(CryptoFailure)
  {
    hide Lawful, TellsApart, KeyFor, Sealed, Opened, DefaultCipher, DefaultKdf;
    var p, private := x.parsePoint(part.curve, part.pubkey).value, KeyFor(ring, part.curve).value;
    var guidSlot := if part.guid.Some? then Some((part.guid.value, part.slot)) else None;
    var box := EmptyBox(part.curve).(guidSlot := guidSlot, plaintext := Some(payload.value));
    OpensOnlyWithItsSecret(x, box, p, private, en.boxNonce(c, i), en.boxIv(c, i), NormPart(made).box, secret, secrets);
  }

  lemma ForeignAttempt(
      x: Crypto, en: Entropy, ring: seq<RingKey>, part: TplPart, c: nat, i: nat, payload: Outcome<Bytes>, made: Part,
      oracle: Oracle, secrets: iset<Bytes>)
    requires Lawful(x) && Proper(en) && TellsApart(x, secrets) && AllInPlay(x, secrets) && Foreign(x, oracle, secrets)
    requires MadeWith(x, en, ring, part, c, i, payload, made)
    ensures TryPart(x, Hoisted(x, ring), NormPart(made).box, oracle).box.None?
  {
    hide Lawful, TellsApart, AllInPlay, PartQuery, Opened, PointBlob, MadeWith, KeyFor, Hoisted, NormPart;
    ArrivedPartIsSealedTo(x, en, ring, part, c, i, payload, made);
    var p, private := x.parsePoint(part.curve, part.pubkey).value, KeyFor(ring, part.curve).value;
    var q := Query(PointBlob(part.curve, p), PointBlob(part.curve, x.publicKey(part.curve, private)));
    var reply := oracle.answer(oracle.asked, q);
    if reply.Secret? { ArrivedPartOpensIff(x, en, ring, part, c, i, payload, made, reply.bytes, secrets); }
  }

  lemma SameAnswersSameForeigner(x: Crypto, o1: Oracle, o2: Oracle, secrets: iset<Bytes>)
    requires o1.answer == o2.answer
    ensures Foreign(x, o1, secrets) == Foreign(x, o2, secrets)
  {
  }

  lemma NothingOpens(
      x: Crypto, en: Entropy, tpl: Template, ring: seq<RingKey>, key: Bytes, e: Ebox, a: Asking, order: seq<Try>, k: nat,
      secrets: iset<Bytes>)
    requires Lawful(x) && Proper(en) && TellsApart(x, secrets) && AllInPlay(x, secrets)
    requires |e.configs| == |tpl.configs| && e.ephemerals == Hoisted(x, ring)
    requires ConfigsMade(x, en, ring, tpl.configs, key, e.configs)
    requires ForeignIfAny(x, a.agent, secrets) && ForeignIfAny(x, a.card, secrets)
    requires Possible(NormEbox(e), order, a) && k < |order|
    ensures AttemptIn(x, NormEbox(e), order, a, k).box.None?
  {
    hide Lawful, TellsApart, AllInPlay, TryPart, MadeWith, Foreign, KeyFor, AfterFirst, AfterAttempt, Hoisted, Payload;
    var t := order[k];
    var config, made := tpl.configs[t.config], e.configs[t.config];
    var part, payload := config.parts[t.part], Payload(ConfigShares(x, en, config, t.config), key, t.part);
    assert ConfigMade(x, en, ring, config, t.config, key, made);
    assert MadeWith(x, en, ring, part, t.config, t.part, payload, made.parts[t.part]);
    OraclesStay(x, NormEbox(e), order, a, k);
    var oracle := OracleOf(AfterFirst(x, NormEbox(e), order, a, k), t.who).value;
    SameAnswersSameForeigner(x, oracle, OracleOf(a, t.who).value, secrets);
    ForeignAttempt(x, en, ring, part, t.config, t.part, payload, made.parts[t.part], oracle, secrets);
  }

  /**
   * Nobody else can decrypt. Whatever oracles are asked, as long as no secret they give is the one
   * the keys of the part they are asked about share, unlocking an ebox fresh from the wire fails and
   * leaves it as it was, provided SHA-512 and the AEAD tell the secrets in play apart.
   */
  lemma ForeignSecretsNeverUnlock(
      x: Crypto, en: Entropy, tpl: Template, key: Bytes, kind: EboxType, rest: Bytes,
      agent: Option<Oracle>, card: Option<Oracle>, secrets: iset<Bytes>)
    requires Lawful(x) && Proper(en) && LengthsFit(tpl) && kind != TemplateType && |key| <= LONGEST_KEY
    requires Create(x, en, tpl, key, kind).Success?
    requires TellsApart(x, secrets) && AllInPlay(x, secrets)
    requires ForeignIfAny(x, agent, secrets) && ForeignIfAny(x, card, secrets)
    ensures var e := Create(x, en, tpl, key, kind).value;
            && PutEbox(e).Success? && GetEbox(PutEbox(e).value + rest).Success?
            && var arrived := GetEbox(PutEbox(e).value + rest).value.0;
               Unlock(x, arrived, agent, card).result.Failure? && Unlock(x, arrived, agent, card).ebox == arrived && arrived.key.None?
  {
    hide Lawful, Create, PutEbox, GetEbox, ForeignIfAny, Unlock, ConfigsMade, NormEbox, TellsApart, AllInPlay, Order, AttemptIn, AfterFirst;
    var ring := CreatedEboxArrives(x, en, tpl, key, kind, rest);
    var e := Create(x, en, tpl, key, kind).value;
    var arrived := NormEbox(e);
    var a, order := Asking(agent, card, InitialReason(arrived)), Order(arrived, 0, agent.Some?, card.Some?);
    var k := SearchIsExact(x, arrived, agent, card);
    if Unlock(x, arrived, agent, card).result.Success? {
      NothingOpens(x, en, tpl, ring, key, e, a, order, k, secrets);
    }
  }

  // --- the hypotheses can be met ------------------------------------------------------------

  /** A toy whose hash starts with what it hashes and whose cipher ends with its key's first byte. */
  function Fussy(): Crypto {
    Toy().(agree := (_, _, _) => [1], sha512 := b => FussyHash(b),
           aeadSeal := (k, _, m) => m + Repeat(0, 15) + [First(k)], aeadOpen := (k, _, c) => FussyOpen(k, c))
  }

  function First(b: Bytes): Byte { if b == [] then 0 else b[0] }
  function FussyHash(b: Bytes): Bytes { [First(b)] + Repeat(0, 63) }
  function FussyOpen(k: Bytes, c: Bytes): Option<Bytes> {
    if |c| < 16 || c[|c| - 1] != First(k) then None else Some(c[..|c| - 16])
  }

  lemma FussyKeepsApart(s: Bytes, t: Bytes, nonce: Bytes, iv: Bytes, m: Bytes)
    requires s in iset{[1], [2]} && t in iset{[1], [2]} && s != t
    ensures KeepsApart(Fussy(), s, t, nonce, iv, m)
  {
    var x := Fussy();
    assert (s + nonce)[0] == s[0] && (t + nonce)[0] == t[0];
    assert x.sha512(s + nonce)[..32][0] == s[0] && x.sha512(t + nonce)[..32][0] == t[0];
  }

  lemma FussyTellsApart()
    ensures TellsApart(Fussy(), iset{[1], [2]}) && AllInPlay(Fussy(), iset{[1], [2]})
  {
    var x := Fussy();
    assert AllInPlay(x, iset{[1], [2]});
    hide Fussy, KeepsApart;
    forall s: Bytes, t: Bytes, nonce: Bytes, iv: Bytes, m: Bytes | s in iset{[1], [2]} && t in iset{[1], [2]} && s != t
      ensures KeepsApart(x, s, t, nonce, iv, m)
    {
      FussyKeepsApart(s, t, nonce, iv, m);
    }
  }

  lemma FussyOpensItsOwn(k: Bytes, iv: Bytes, m: Bytes)
    ensures var x := Fussy();
            && x.aeadOpen(k, iv, x.aeadSeal(k, iv, m)) == Some(m) && |x.aeadSeal(k, iv, m)| == |m| + 16
            && x.gcmOpen(k, iv, x.gcmSeal(k, iv, m)) == Some(m) && |x.gcmSeal(k, iv, m)| == |m| + 16
  {
    assert (m + Repeat(0, 15) + [First(k)])[..|m|] == m;
    assert (m + Repeat(0, 16))[..|m|] == m;
  }

  lemma FussyHashes(b: Bytes)
    ensures |Fussy().sha512(b)| == 64
  {
  }

  lemma FussyCiphers()
    ensures LawfulCiphers(Fussy())
  {
    hide Fussy;
    forall b: Bytes { FussyHashes(b); }
    forall k: Bytes, iv: Bytes, m: Bytes { FussyOpensItsOwn(k, iv, m); }
  }

  lemma FussyIsLawful()
    ensures Lawful(Fussy())
  {
    hide LawfulCiphers, TellsApart;
    LawsCanBeMet();
    FussyCiphers();
    assert LawfulPoints(Fussy()) && LawfulAgreement(Fussy()) && LawfulSharing(Fussy());
    hide LawfulPoints, LawfulAgreement, LawfulSharing;
  }

  /** With these primitives an oracle that only ever says the wrong secret is foreign, and one that says the right one is not. */
  lemma ForeignersExist()
    ensures Lawful(Fussy()) && TellsApart(Fussy(), iset{[1], [2]}) && AllInPlay(Fussy(), iset{[1], [2]})
    ensures Foreign(Fussy(), Oracle((_, _) => Secret([2]), []), iset{[1], [2]})
    ensures !Foreign(Fussy(), Oracle((_, _) => Secret([1]), []), iset{[1], [2]})
  {
    hide Lawful, TellsApart, AllInPlay, PointBlob;
    FussyIsLawful();
    FussyTellsApart();
    var o := Oracle((_, _) => Secret([1]), []);
    var reply := o.answer([], Query(PointBlob(NistP256, []), PointBlob(NistP256, Fussy().publicKey(NistP256, []))));
    assert reply == Secret([1]);
  }
}
