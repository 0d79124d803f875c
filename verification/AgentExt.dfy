/** The key blobs and messages exchanged with whoever holds a private key (crates/piggy-box/src/agent_ext.rs). */
module AgentExt {
  import opened Base
  import opened Wire
  import opened BoxFormat

  /** `ecdsa-sha2-` and the curve's name. */
  function SshKeytype(curve: Curve): Bytes {
    [0x65, 0x63, 0x64, 0x73, 0x61, 0x2D, 0x73, 0x68, 0x61, 0x32, 0x2D] + WireName(curve)
  }

  function PointBlob(curve: Curve, point: Bytes): Bytes {
    String32(SshKeytype(curve)) + (String32(WireName(curve)) + String32(point))
  }

  method EcPointToSshPubkeyBlob(curve: Curve, point: Bytes) returns (blob: Bytes)
    ensures blob == PointBlob(curve, point)
  {
    hide SshKeytype, WireName, String32;
    var w := new WireWriter();
    w.PutString(SshKeytype(curve));
    w.PutString(WireName(curve));
    w.PutString(point);
    assert w.buf == PointBlob(curve, point);
    return w.buf;
  }

  /** Step over the key type and the curve name; what follows the point is ignored. */
  function ExtractPoint(blob: Bytes): Outcome<Bytes> {
    var keytype :- GetString(blob);
    var name :- GetString(keytype.1);
    var point :- GetString(name.1);
    Success(point.0)
  }

  /** A point survives its blob exactly if its length fits the 32-bit prefix. */
  lemma PointSurvivesBlobIff(curve: Curve, point: Bytes)
    ensures ExtractPoint(PointBlob(curve, point)) == Success(point) <==> |point| < TWO_32
  {
    hide GetString, String32;
    String32RoundTripsIff(SshKeytype(curve), String32(WireName(curve)) + String32(point));
    String32RoundTripsIff(WireName(curve), String32(point));
    String32RoundTripsIff(point, []);
    assert String32(point) + [] == String32(point);
    if ExtractPoint(PointBlob(curve, point)) == Success(point) {
      assert FitsString32(GetString(String32(point)).value.0);
    }
  }

  /** Blobs tell curves and points apart. */
  lemma BlobsAreDistinct(curve1: Curve, point1: Bytes, curve2: Curve, point2: Bytes)
    requires |point1| < TWO_32 && |point2| < TWO_32 && PointBlob(curve1, point1) == PointBlob(curve2, point2)
    ensures curve1 == curve2 && point1 == point2
  {
    hide GetString, String32;
    PointSurvivesBlobIff(curve1, point1);
    PointSurvivesBlobIff(curve2, point2);
    String32RoundTripsIff(SshKeytype(curve1), String32(WireName(curve1)) + String32(point1));
    String32RoundTripsIff(SshKeytype(curve2), String32(WireName(curve2)) + String32(point2));
    assert SshKeytype(curve1)[11..] == WireName(curve1) && SshKeytype(curve2)[11..] == WireName(curve2);
    CurveNamesRoundTrip(curve1, WireName(curve1));
    CurveNamesRoundTrip(curve2, WireName(curve1));
  }

  // --- the agent extension's messages ---------------------------------------------

  function RequestBytes(selfBlob: Bytes, partnerBlob: Bytes, flags: nat): Bytes {
    String32(String32(selfBlob) + (String32(partnerBlob) + U32(flags)))
  }

  /** How the agent takes a request apart (crates/piggy/src/cmd/agent/session.rs): one string holding both blobs and the flags. */
  function RequestFields(details: Bytes): Outcome<(Bytes, Bytes, nat)> {
    var inner :- GetString(details);
    var selfBlob :- GetString(inner.0);
    var partnerBlob :- GetString(selfBlob.1);
    var flags :- GetU32(partnerBlob.1);
    Success((selfBlob.0, partnerBlob.0, flags.0))
  }

  /** Exactly when a request's inner string fits its length prefix does the agent get both blobs and the flags. */
  method EncodeEcdhRequest(selfBlob: Bytes, partnerBlob: Bytes, flags: nat) returns (details: Bytes)
    requires flags < TWO_32
    ensures details == RequestBytes(selfBlob, partnerBlob, flags)
    ensures RequestFields(details) == Success((selfBlob, partnerBlob, flags)) <==> |selfBlob| + |partnerBlob| + 12 < TWO_32
  {
    hide String32, U32, RequestFields;
    var inner := new WireWriter();
    inner.PutString(selfBlob);
    inner.PutString(partnerBlob);
    inner.PutU32(flags);
    assert inner.buf == String32(selfBlob) + (String32(partnerBlob) + U32(flags));
    var outer := new WireWriter();
    outer.PutString(inner.buf);
    details := outer.buf;
    assert details == RequestBytes(selfBlob, partnerBlob, flags);
    hide RequestBytes;
    RequestArrivesIff(selfBlob, partnerBlob, flags);
  }

  /** A string read takes its length prefix and its bytes off the front. */
  lemma StringTakes(b: Bytes)
    requires GetString(b).Success?
    ensures |b| == 4 + |GetString(b).value.0| + |GetString(b).value.1|
  {
    hide ToNat, Pow256;
  }

  lemma RequestArrivesIff(selfBlob: Bytes, partnerBlob: Bytes, flags: nat)
    requires flags < TWO_32
    ensures RequestFields(RequestBytes(selfBlob, partnerBlob, flags)) == Success((selfBlob, partnerBlob, flags))
            <==> |selfBlob| + |partnerBlob| + 12 < TWO_32
  {
    var tail := String32(partnerBlob) + U32(flags);
    var inner := String32(selfBlob) + tail;
    var details := RequestBytes(selfBlob, partnerBlob, flags);
    assert |inner| == |selfBlob| + |partnerBlob| + 12;
    hide GetString, String32, GetU32, U32;
    String32RoundTripsIff(inner, []);
    assert String32(inner) + [] == details;
    if |inner| < TWO_32 {
      String32RoundTripsIff(selfBlob, tail);
      String32RoundTripsIff(partnerBlob, U32(flags));
      U32RoundTrips(flags, []);
      assert U32(flags) + [] == U32(flags);
    } else if RequestFields(details) == Success((selfBlob, partnerBlob, flags)) {
      var cut := GetString(details).value.0;
      StringTakes(cut);
      StringTakes(GetString(cut).value.1);
      FlagsTake(GetString(GetString(cut).value.1).value.1);
    }
  }

  lemma FlagsTake(b: Bytes)
    requires GetU32(b).Success?
    ensures |b| >= 4
  {
  }

  /** Requests that arrive tell their blobs and flags apart. */
  lemma RequestsAreDistinct(self1: Bytes, partner1: Bytes, flags1: nat, self2: Bytes, partner2: Bytes, flags2: nat)
    requires flags1 < TWO_32 && flags2 < TWO_32
    requires |self1| + |partner1| + 12 < TWO_32 && |self2| + |partner2| + 12 < TWO_32
    requires RequestBytes(self1, partner1, flags1) == RequestBytes(self2, partner2, flags2)
    ensures (self1, partner1, flags1) == (self2, partner2, flags2)
  {
    hide RequestBytes, RequestFields;
    RequestArrivesIff(self1, partner1, flags1);
    RequestArrivesIff(self2, partner2, flags2);
  }

  function ResponseSecret(details: Bytes): Outcome<Bytes> {
    if GetString(details).Success? && GetString(details).value.1 == [] then Success(GetString(details).value.0)
    else Failure(InvalidAgentReply)
  }

  method DecodeEcdhResponse(details: Bytes) returns (result: Outcome<Bytes>)
    ensures result == ResponseSecret(details)
  {
    if |details| < 4 { return Failure(InvalidAgentReply); }
    var reader := new WireReader(details);
    var secret := reader.ReadString();
    if secret.Failure? { return Failure(InvalidAgentReply); }
    if reader.pos != |details| { return Failure(InvalidAgentReply); }
    return secret;
  }

  /** A reply is a secret exactly if it is that secret's one string and nothing more. */
  lemma ResponseIsOneStringIff(details: Bytes, secret: Bytes)
    requires |secret| < TWO_32
    ensures ResponseSecret(details) == Success(secret) <==> details == String32(secret)
  {
    String32RoundTripsIff(secret, []);
    assert String32(secret) + [] == String32(secret);
    if ResponseSecret(details) == Success(secret) {
      String32ReadsBack(details);
    }
  }
}
