/** N-of-M recovery gives back exactly the key the ebox was made with (crates/piggy-box/src/ebox.rs). */
module EboxRecovery {
  import opened Base
  import opened Wire
  import opened BoxFormat
  import opened Many
  import opened TemplateFormat
  import opened EboxFormat
  import opened BoxCrypto
  import opened AgentExt
  import opened EboxUnlock
  import opened EboxCreate
  import opened EboxTheorems

  // --- when making an ebox succeeds ------------------------------------------------

  predicate PointsParse(x: Crypto, parts: seq<TplPart>) {
    forall i :: 0 <= i < |parts| ==> x.parsePoint(parts[i].curve, parts[i].pubkey).Some?
  }

  lemma {:induction false} PartsSucceedIff(
      x: Crypto, en: Entropy, parts: seq<TplPart>, n: nat, c: nat, shares: Option<seq<Bytes>>, key: Bytes, ring: seq<RingKey>)
    requires n <= |parts| && Proper(en)
    ensures MakeParts(x, en, parts, n, c, shares, key, ring).Success? <==>
            PointsParse(x, parts[..n]) && (shares.Some? ==> n <= |shares.value|)
  {
    hide KeyFor, WithKey, BoxKey, Pkcs7Pad, DefaultCipher, DefaultKdf;
    if n > 0 {
      PartsSucceedIff(x, en, parts, n - 1, c, shares, key, ring);
      assert parts[..n] == parts[..n - 1] + [parts[n - 1]];
      assert PointsParse(x, parts[..n]) <==>
             PointsParse(x, parts[..n - 1]) && x.parsePoint(parts[n - 1].curve, parts[n - 1].pubkey).Some? by {
        OnePointMore(x, parts[..n - 1], parts[n - 1]);
      }
    }
  }

  lemma OnePointMore(x: Crypto, parts: seq<TplPart>, last: TplPart)
    ensures PointsParse(x, parts + [last]) <==> PointsParse(x, parts) && x.parsePoint(last.curve, last.pubkey).Some?
  {
    if PointsParse(x, parts + [last]) {
      assert (parts + [last])[|parts|] == last;
      forall i | 0 <= i < |parts| ensures x.parsePoint(parts[i].curve, parts[i].pubkey).Some? { assert (parts + [last])[i] == parts[i]; }
    }
  }

  /** A RECOVERY config has as many shares as its count of parts says, cut to a byte. */
  lemma OneShareEach(x: Crypto, en: Entropy, config: TplConfig, c: nat)
    requires Lawful(x) && Proper(en)
    ensures ConfigShares(x, en, config, c).Some? <==> config.kind == Recovery
    ensures ConfigShares(x, en, config, c).Some? ==> |ConfigShares(x, en, config, c).value| == |config.parts| % 256
  {
    hide LawfulPoints, LawfulAgreement, LawfulCiphers;
  }

  /** Every public key is a point, and a RECOVERY config has no more parts than it can have shares. */
  predicate CanBeMade(x: Crypto, config: TplConfig) {
    PointsParse(x, config.parts) && (config.kind == Recovery ==> |config.parts| < 256)
  }

  lemma {:induction false} ConfigsSucceedIff(x: Crypto, en: Entropy, configs: seq<TplConfig>, n: nat, key: Bytes)
    requires Lawful(x) && Proper(en) && n <= |configs|
    ensures MakeConfigs(x, en, configs, n, key).Success? <==> forall c :: 0 <= c < n ==> CanBeMade(x, configs[c])
  {
    hide PointsParse, MakeParts, Lawful, ConfigShares;
    if n > 0 {
      ConfigsSucceedIff(x, en, configs, n - 1, key);
      var config := configs[n - 1];
      OneShareEach(x, en, config, n - 1);
      if MakeConfigs(x, en, configs, n - 1, key).Success? {
        var ring := MakeConfigs(x, en, configs, n - 1, key).value.0;
        PartsSucceedIff(x, en, config.parts, |config.parts|, n - 1, ConfigShares(x, en, config, n - 1), key, ring);
        assert config.parts[..|config.parts|] == config.parts;
      }
    }
  }

  /**
   * An ebox is made exactly if the key fits a `string8`, every public key is a point and no
   * RECOVERY config has more than 255 parts: the share count is cut to a byte, and dealing
   * out the parts then runs past the shares.
   */
  lemma CreateSucceedsIff(x: Crypto, en: Entropy, tpl: Template, key: Bytes, kind: EboxType)
    requires Lawful(x) && Proper(en)
    ensures Create(x, en, tpl, key, kind).Success? <==>
            |key| <= 255 && forall c :: 0 <= c < |tpl.configs| ==> CanBeMade(x, tpl.configs[c])
  {
    hide MakeConfigs, CanBeMade, Lawful;
    ConfigsSucceedIff(x, en, tpl.configs, |tpl.configs|, key);
  }

  lemma PartCountFits(tpl: Template, c: nat)
    requires LengthsFit(tpl) && c < |tpl.configs|
    ensures |tpl.configs[c].parts| < 256
  {
  }

  // --- the opened parts ---------------------------------------------------------------

  /** The parts with exactly those of `picks` opened, each to its share. */
  function OpenedParts(parts: seq<Part>, shares: seq<Bytes>, picks: seq<nat>): (r: seq<Part>)
    requires |shares| == |parts|
    ensures |r| == |parts|
  {
    seq(|parts|, i requires 0 <= i < |parts| =>
      if i in picks then parts[i].(box := parts[i].box.(plaintext := Some(shares[i]))) else parts[i])
  }

  predicate NoneOpen(parts: seq<Part>) { forall i :: 0 <= i < |parts| ==> parts[i].box.plaintext.None? }

  lemma PicksShrink(picks: seq<nat>, m: nat)
    requires Picks(picks, m) && m > 0
    ensures picks != [] && picks[|picks| - 1] == m - 1 ==> Picks(picks[..|picks| - 1], m - 1) && m - 1 !in picks[..|picks| - 1]
    ensures picks == [] || picks[|picks| - 1] != m - 1 ==> Picks(picks, m - 1) && m - 1 !in picks
  {
    if picks != [] {
      var n := |picks| - 1;
      forall i | 0 <= i < n ensures picks[i] < picks[n] {}
    }
  }

  /** The opened data, in part order, is the chosen shares. */
  lemma {:induction false} OpenDataIsChosen(parts: seq<Part>, shares: seq<Bytes>, picks: seq<nat>)
    requires |parts| <= |shares| && Picks(picks, |parts|)
    requires forall i :: 0 <= i < |parts| ==> parts[i].box.plaintext == if i in picks then Some(shares[i]) else None
    ensures OpenData(parts) == Chosen(shares, picks)
  {
    if parts != [] {
      var m := |parts|;
      PicksShrink(picks, m);
      if picks != [] && picks[|picks| - 1] == m - 1 {
        var front := picks[..|picks| - 1];
        assert picks == front + [m - 1];
        OpenDataIsChosen(parts[..m - 1], shares, front);
        assert Chosen(shares, picks) == Chosen(shares, front) + [shares[m - 1]];
      } else {
        OpenDataIsChosen(parts[..m - 1], shares, picks);
      }
    }
  }

  lemma {:induction false} AllAreShares(x: Crypto, data: seq<Bytes>)
    requires forall i :: 0 <= i < |data| ==> x.isShare(data[i])
    ensures SharesAmong(x, data) == data
  {
    if data != [] {
      AllAreShares(x, data[..|data| - 1]);
      assert data == data[..|data| - 1] + [data[|data| - 1]];
    }
  }

  /** Taking the data out again leaves the parts as they were before any was opened. */
  lemma TakenOutAgain(parts: seq<Part>, shares: seq<Bytes>, picks: seq<nat>)
    requires |shares| == |parts| && NoneOpen(parts)
    ensures TakenParts(OpenedParts(parts, shares, picks)) == parts
  {
  }

  lemma RecoveryPlainHoldsTheKey(key: Bytes)
    requires |key| <= 255
    ensures RecoveryPlain(key).Success? && RecoveredKey(RecoveryPlain(key).value) == Success(key)
  {
    var plain := RecoveryPlain(key).value;
    String8Reads(key, [], plain[1..]);
    assert plain[1..] == String8(key).value + [];
  }

  // --- the key comes back ------------------------------------------------------------------

  /** What the parts of RECOVERY config `c` are sealed around. */
  function Shares(x: Crypto, en: Entropy, tpl: Template, c: nat): seq<Bytes>
    requires c < |tpl.configs| && |en.configNonce(c)| == |en.recoveryKey|
  {
    var config := tpl.configs[c];
    x.deal(config.n, Xor(en.configNonce(c), en.recoveryKey), en.shareSeed(c), |config.parts| % 256)
  }

  /** A recipient of the arrived ebox is asked about its own key, and the secret it shares opens its part to its share. */
  lemma OpeningGivesTheShare(
      x: Crypto, en: Entropy, tpl: Template, key: Bytes, kind: EboxType, rest: Bytes, c: nat, i: nat, private: Bytes)
      returns (ephemeral: Bytes)
    requires Lawful(x) && Proper(en) && LengthsFit(tpl) && kind != TemplateType && |key| <= LONGEST_KEY
    requires Create(x, en, tpl, key, kind).Success?
    requires c < |tpl.configs| && tpl.configs[c].kind == Recovery && i < |tpl.configs[c].parts|
    requires var part := tpl.configs[c].parts[i]; x.parsePoint(part.curve, part.pubkey) == Some(x.publicKey(part.curve, private))
    ensures var arrived := NormEbox(Create(x, en, tpl, key, kind).value); var part := tpl.configs[c].parts[i];
            && |Shares(x, en, tpl, c)| == |tpl.configs[c].parts| == |arrived.configs[c].parts|
            && var box := arrived.configs[c].parts[i].box;
               && PartQuery(x, arrived.ephemerals, box) == Some(Query(PointBlob(part.curve, x.publicKey(part.curve, private)),
                                                                     PointBlob(part.curve, x.publicKey(part.curve, ephemeral))))
               && Opened(x, box, x.agree(part.curve, private, x.publicKey(part.curve, ephemeral)))
               == Success(box.(plaintext := Some(Shares(x, en, tpl, c)[i])))
  {
    hide Lawful, LengthsFit, Create, PutEbox, GetEbox, MadeWith, KeyFor, PartQuery, Opened, NormPart, ConfigsMade;
    var e := Create(x, en, tpl, key, kind).value;
    var ring := CreatedEboxArrives(x, en, tpl, key, kind, rest);
    PartCountFits(tpl, c);
    ephemeral := ArrivedShareOpens(x, en, ring, tpl, key, e, c, i, private);
  }

  lemma ArrivedShareOpens(
      x: Crypto, en: Entropy, ring: seq<RingKey>, tpl: Template, key: Bytes, e: Ebox, c: nat, i: nat, private: Bytes)
      returns (ephemeral: Bytes)
    requires Lawful(x) && Proper(en) && |e.configs| == |tpl.configs| && e.ephemerals == Hoisted(x, ring)
    requires ConfigsMade(x, en, ring, tpl.configs, key, e.configs)
    requires c < |tpl.configs| && tpl.configs[c].kind == Recovery && i < |tpl.configs[c].parts| < 256
    requires var part := tpl.configs[c].parts[i]; x.parsePoint(part.curve, part.pubkey) == Some(x.publicKey(part.curve, private))
    ensures var arrived := NormEbox(e); var part := tpl.configs[c].parts[i];
            && |Shares(x, en, tpl, c)| == |tpl.configs[c].parts| == |arrived.configs[c].parts|
            && var box := arrived.configs[c].parts[i].box;
               && PartQuery(x, arrived.ephemerals, box) == Some(Query(PointBlob(part.curve, x.publicKey(part.curve, private)),
                                                                     PointBlob(part.curve, x.publicKey(part.curve, ephemeral))))
               && Opened(x, box, x.agree(part.curve, private, x.publicKey(part.curve, ephemeral)))
                  == Success(box.(plaintext := Some(Shares(x, en, tpl, c)[i])))
  {
    hide Lawful, MadeWith, KeyFor, PartQuery, Opened, NormPart, PointBlob;
    var config, part := tpl.configs[c], tpl.configs[c].parts[i];
    assert ConfigMade(x, en, ring, config, c, key, e.configs[c]);
    OneShareEach(x, en, config, c);
    var payload := Payload(ConfigShares(x, en, config, c), key, i);
    assert MadeWith(x, en, ring, part, c, i, payload, e.configs[c].parts[i]);
    ArrivedPartIsSealedTo(x, en, ring, part, c, i, payload, e.configs[c].parts[i]);
    ephemeral := KeyFor(ring, part.curve).value;
    BothSidesAgree(x, part.curve, private, ephemeral);
    assert NormEbox(e).configs[c].parts[i] == NormPart(e.configs[c].parts[i]);
  }

  lemma BothSidesAgree(x: Crypto, curve: Curve, a: Bytes, b: Bytes)
    requires Lawful(x)
    ensures x.agree(curve, a, x.publicKey(curve, b)) == x.agree(curve, b, x.publicKey(curve, a))
  {
    hide LawfulPoints, LawfulCiphers, LawfulSharing;
  }

  /** Combining the chosen shares and opening the recovery box cancels out what making the ebox did. */
  lemma SharesRecover(
      x: Crypto, en: Entropy, tpl: Template, key: Bytes, e: Ebox, config: Config, c: nat, picks: seq<nat>)
    requires Lawful(x) && Proper(en) && |key| <= 255 && c < |tpl.configs| && tpl.configs[c].kind == Recovery
    requires |tpl.configs[c].parts| < 256 && Picks(picks, |tpl.configs[c].parts|)
    requires config.n == tpl.configs[c].n && config.nonce == en.configNonce(c)
    requires e.recoveryIv == en.gcmIv && e.recoveryEnc == x.gcmSeal(en.recoveryKey, en.gcmIv, RecoveryPlain(key).value)
    requires |Shares(x, en, tpl, c)| == |tpl.configs[c].parts|
    requires OpenData(config.parts) == Chosen(Shares(x, en, tpl, c), picks)
    ensures |picks| >= config.n && |picks| >= 1 ==> RecoveredFrom(x, e, config) == Success(key)
    ensures |picks| < config.n ==> RecoveredFrom(x, e, config) == Failure(ThresholdNotMet(|picks|, config.n))
  {
    hide LawfulPoints, LawfulAgreement, OpenData, RecoveredKey, RecoveryPlain;
    var shares, m := Shares(x, en, tpl, c), |tpl.configs[c].parts|;
    var secret := Xor(en.configNonce(c), en.recoveryKey);
    forall i | 0 <= i < |picks| ensures x.isShare(Chosen(shares, picks)[i]) {
      assert x.isShare(x.deal(config.n, secret, en.shareSeed(c), m)[picks[i]]);
    }
    AllAreShares(x, Chosen(shares, picks));
    if |picks| >= config.n && |picks| >= 1 {
      assert x.combine(config.n, Chosen(shares, picks)) == Some(secret);
      XorTwice(en.recoveryKey, en.configNonce(c));
      RecoveryPlainHoldsTheKey(key);
    }
  }

  /**
   * Opening any `n` or more parts of a RECOVERY config of an ebox that went through the wire,
   * and recovering, restores exactly the key it was made with and leaves nothing opened behind;
   * with fewer than `n` the key stays unset.
   */
  lemma AnyNOfMRecover(
      x: Crypto, en: Entropy, tpl: Template, key: Bytes, kind: EboxType, rest: Bytes, c: nat, picks: seq<nat>)
    requires Lawful(x) && Proper(en) && LengthsFit(tpl) && kind != TemplateType && |key| <= LONGEST_KEY
    requires Create(x, en, tpl, key, kind).Success?
    requires c < |tpl.configs| && tpl.configs[c].kind == Recovery && Picks(picks, |tpl.configs[c].parts|)
    ensures var e := Create(x, en, tpl, key, kind).value; var n := tpl.configs[c].n;
            && PutEbox(e).Success? && GetEbox(PutEbox(e).value + rest).Success?
            && var arrived := GetEbox(PutEbox(e).value + rest).value.0;
               && c < |arrived.configs| && |Shares(x, en, tpl, c)| == |arrived.configs[c].parts|
               && var opened' := WithParts(arrived, c, OpenedParts(arrived.configs[c].parts, Shares(x, en, tpl, c), picks));
                  && (|picks| >= n && |picks| >= 1 ==> AfterRecover(x, opened', c) == (arrived.(key := Some(key)), Success(())))
                  && (|picks| < n ==> AfterRecover(x, opened', c) == (arrived, Failure(ThresholdNotMet(|picks|, n))))
  {
    hide Lawful, Create, PutEbox, GetEbox, RecoveredFrom, ConfigsMade;
    var e := Create(x, en, tpl, key, kind).value;
    var ring := CreatedEboxArrives(x, en, tpl, key, kind, rest);
    RecoveryBoxLength(x, en, tpl, key, kind);
    CreatedRecoveryBox(x, en, tpl, key, kind);
    ArrivedConfig(x, en, ring, tpl, key, e, c);
    RecoverOpened(x, en, tpl, key, NormEbox(e), c, picks);
  }

  lemma CreatedRecoveryBox(x: Crypto, en: Entropy, tpl: Template, key: Bytes, kind: EboxType)
    requires Proper(en) && Create(x, en, tpl, key, kind).Success?
    ensures var e := Create(x, en, tpl, key, kind).value;
            RecoveryPlain(key).Success? && e.recoveryIv == en.gcmIv
            && e.recoveryEnc == x.gcmSeal(en.recoveryKey, en.gcmIv, RecoveryPlain(key).value)
  {
    hide MakeConfigs, RecoveryPlain;
  }

  lemma ArrivedConfig(x: Crypto, en: Entropy, ring: seq<RingKey>, tpl: Template, key: Bytes, e: Ebox, c: nat)
    requires Lawful(x) && Proper(en) && LengthsFit(tpl) && c < |tpl.configs| && tpl.configs[c].kind == Recovery
    requires |e.configs| == |tpl.configs| && ConfigsMade(x, en, ring, tpl.configs, key, e.configs)
    ensures var config := NormEbox(e).configs[c];
            && config.n == tpl.configs[c].n && config.nonce == en.configNonce(c)
            && |config.parts| == |tpl.configs[c].parts| == |Shares(x, en, tpl, c)| < 256
            && NoneOpen(config.parts)
  {
    hide Lawful, AllMade, Taken, LengthsFit;
    PartCountFits(tpl, c);
    assert ConfigMade(x, en, ring, tpl.configs[c], c, key, e.configs[c]);
    OneShareEach(x, en, tpl.configs[c], c);
    assert NormEbox(e).configs[c] == NormConfig(e.configs[c]);
  }

  lemma RecoverOpened(x: Crypto, en: Entropy, tpl: Template, key: Bytes, arrived: Ebox, c: nat, picks: seq<nat>)
    requires Lawful(x) && Proper(en) && |key| <= 255 && c < |tpl.configs| == |arrived.configs| && tpl.configs[c].kind == Recovery
    requires var config := arrived.configs[c];
             && config.n == tpl.configs[c].n && config.nonce == en.configNonce(c)
             && |config.parts| == |tpl.configs[c].parts| == |Shares(x, en, tpl, c)| < 256
             && NoneOpen(config.parts)
    requires RecoveryPlain(key).Success? && arrived.recoveryIv == en.gcmIv && arrived.key.None?
    requires arrived.recoveryEnc == x.gcmSeal(en.recoveryKey, en.gcmIv, RecoveryPlain(key).value)
    requires Picks(picks, |tpl.configs[c].parts|)
    ensures var opened' := WithParts(arrived, c, OpenedParts(arrived.configs[c].parts, Shares(x, en, tpl, c), picks)); var n := tpl.configs[c].n;
            && (|picks| >= n && |picks| >= 1 ==> AfterRecover(x, opened', c) == (arrived.(key := Some(key)), Success(())))
            && (|picks| < n ==> AfterRecover(x, opened', c) == (arrived, Failure(ThresholdNotMet(|picks|, n))))
  {
    hide Lawful, RecoveredFrom, RecoveryPlain, Shares, OpenData;
    var parts, shares := arrived.configs[c].parts, Shares(x, en, tpl, c);
    var opened' := OpenedParts(parts, shares, picks);
    OpenDataIsChosen(opened', shares, picks);
    TakenOutAgain(parts, shares, picks);
    var e2 := WithParts(arrived, c, opened');
    SharesRecover(x, en, tpl, key, e2, e2.configs[c], c, picks);
    assert WithParts(e2, c, parts).configs == arrived.configs;
  }

  // --- the hypotheses can be met ---------------------------------------------------------

  function ToyEntropy(): Entropy {
    Entropy(Repeat(0, 32), Repeat(0, 12), _ => Repeat(0, 32), _ => [], (_, _) => [], (_, _) => Repeat(0, NONCE_LEN), (_, _) => Repeat(0, IV_LEN))
  }

  /** One config of `kind`, with one part. */
  function ToyTemplate(kind: ConfigType): Template {
    Template(1, [TplConfig(kind, 1, [TplPart(None, 0x9D, None, [2], NistP256, None)])])
  }

  function ToyOracle(): Oracle { Oracle((_, _) => Secret([]), []) }

  /** With the toy primitives, one part and one oracle, everything asked for above holds, and the key does come back both ways. */
  lemma HypothesesCanBeMet(key: Bytes)
    requires |key| <= LONGEST_KEY
    ensures var e := Create(Toy(), ToyEntropy(), ToyTemplate(Primary), key, KeyType);
            e.Success? && PutEbox(e.value).Success? && GetEbox(PutEbox(e.value).value + []).Success? &&
            Unlock(Toy(), GetEbox(PutEbox(e.value).value + []).value.0, Some(ToyOracle()), None).ebox.key == Some(key)
    ensures Create(Toy(), ToyEntropy(), ToyTemplate(TemplateFormat.Recovery), key, KeyType).Success?
    ensures Lawful(Toy()) && Proper(ToyEntropy()) && Picks([0], 1)
  {
    hide Create, PutEbox, GetEbox, Unlock, Lawful;
    var x, en := Toy(), ToyEntropy();
    LawsCanBeMet();
    ToyCreates(key, Primary);
    ToyCreates(key, TemplateFormat.Recovery);
    AnyRecipientDecrypts(x, en, ToyTemplate(Primary), key, KeyType, [], Some(ToyOracle()), None, 0, 0, Agent, []);
  }

  /** A key of 238 bytes: the ebox is made, and cannot be printed. */
  lemma MadeButNotPrinted()
    ensures var e := Create(Toy(), ToyEntropy(), ToyTemplate(Primary), Repeat(7, 238), KeyType);
            e.Success? && PutEbox(e.value) == Failure(TooLong)
  {
    hide Create, PutEbox, Lawful;
    LawsCanBeMet();
    ToyCreates(Repeat(7, 238), Primary);
    CreatedEboxPrintsIff(Toy(), ToyEntropy(), ToyTemplate(Primary), Repeat(7, 238), KeyType);
  }

  lemma ToyCreates(key: Bytes, kind: ConfigType)
    requires |key| <= 255
    ensures Proper(ToyEntropy()) && LengthsFit(ToyTemplate(kind))
    ensures Create(Toy(), ToyEntropy(), ToyTemplate(kind), key, KeyType).Success?
  {
    hide Create;
    LawsCanBeMet();
    CreateSucceedsIff(Toy(), ToyEntropy(), ToyTemplate(kind), key, KeyType);
  }
}
