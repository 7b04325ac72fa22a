/** One attempt in isolation: what it emits does not depend on what earlier attempts left behind. */
module Transparency {
  import opened Terms
  import opened Signers
  import opened Instructions
  import opened FdcHandler
  import FdcTables
  import Verifier

  /** Equal up to the fields that are certain to be overwritten after pc. */
  predicate SimilarAt(pc: Pc, v: Value, w: Value) {
    && v.event == w.event && v.tees == w.tees
    && match pc
       case Decode | Query(_) | HashResponse(_) | SignResponse(_) =>
         v.data.(variableMessage := EMPTY) == w.data.(variableMessage := EMPTY)
       case Fetch => false
       case HashTees | SignTees(_) => v.data == w.data
       case Send => v == w
  }

  lemma AdvanceSimilar(h: Handler, v: Value, w: Value, pc: Pc, a: Answer)
    requires SimilarAt(pc, v, w)
    ensures var p, q := Advance(h, v, pc, a), Advance(h, w, pc, a);
            && (p.Next? <==> q.Next?) && (p.Closed? <==> q.Closed?) && (p.Emitted? <==> q.Emitted?)
            && (p.Panicked? <==> q.Panicked?)
            && (p.Next? ==> p.pc == q.pc && (!p.pc.Fetch? ==> SimilarAt(p.pc, p.value, q.value)))
            && (p.Next? ==> !p.pc.Fetch?)
            && (p.Emitted? ==> p.value == q.value)
  {
    assert v.data.timestamp == w.data.timestamp by {
      assert v.data.(variableMessage := EMPTY).timestamp == w.data.(variableMessage := EMPTY).timestamp;
    }
    match pc
    case Decode | Query(_) | HashResponse(_) =>
      assert v.data.(variableMessage := EMPTY).originalMessage == w.data.(variableMessage := EMPTY).originalMessage;
      assert v.data.(variableMessage := EMPTY).fixedMessage == w.data.(variableMessage := EMPTY).fixedMessage;
    case SignResponse(d) =>
      forall m: Bytes ensures v.data.(variableMessage := m) == w.data.(variableMessage := m) {
        assert v.data.(variableMessage := EMPTY).(variableMessage := m) == v.data.(variableMessage := m);
        assert w.data.(variableMessage := EMPTY).(variableMessage := m) == w.data.(variableMessage := m);
      }
    case _ =>
  }

  /** A stale AdditionalVariableMessage or stale Signatures never influence an attempt's result. */
  lemma {:induction false} StaleFieldsIrrelevant(h: Handler, v: Value, w: Value, pc: Pc, oracle: Oracle)
    requires SimilarAt(pc, v, w)
    ensures var p, q := Run(h, v, pc, oracle), Run(h, w, pc, oracle);
            && (p.Emitted? <==> q.Emitted?) && (p.Closed? <==> q.Closed?) && (p.Panicked? <==> q.Panicked?)
            && (p.Emitted? ==> p.value == q.value)
    decreases StepsLeft(pc)
  {
    AdvanceSimilar(h, v, w, pc, oracle(StageOf(pc)));
    var p, q := Advance(h, v, pc, oracle(StageOf(pc))), Advance(h, w, pc, oracle(StageOf(pc)));
    if p.Next? {
      StaleFieldsIrrelevant(h, p.value, q.value, p.pc, oracle);
    }
  }

  /** The signed digest commits to the chain, the request, the verified body, the cosigners, their threshold
      and the block time, and to nothing a retry could have changed. */
  lemma DigestCommits(h: Handler, v: Value, r: FdcRequest, k: Handler, w: Value, s: FdcRequest)
    ensures ResponseDigest(h, v, r) == ResponseDigest(k, w, s) <==>
              && h.chainId == k.chainId && r == s && v.data.fixedMessage == w.data.fixedMessage
              && v.event.cosigners == w.event.cosigners && v.event.cosignersThreshold == w.event.cosignersThreshold
              && v.data.timestamp == w.data.timestamp
  {
  }

  /** The only instruction that may be emitted for a request verified with `body`. */
  function CleanEmission(h: Handler, origin: Value, body: seq<Byte>): Value
    requires origin.data.originalMessage.RequestDoc?
  {
    var verified := origin.(data := origin.data.(fixedMessage := Raw(body)));
    var digest := ResponseDigest(h, verified, origin.data.originalMessage.request);
    var signature := SignatureBytes(By(h.signer.key, TextHash(digest)));
    var endorsed := verified.(data := verified.data.(variableMessage := signature));
    endorsed.(signatures := SignAll(h.signer.key, Hashes(endorsed, h.chainId)))
  }

  /** The message is the key's signature over the relay's digest, chain-bound, of the FDC message: this request,
      the verified body, the event's cosigners and threshold, and the block time. */
  predicate Endorses(message: Bytes, key: PublicKey, chainId: nat, request: FdcRequest, body: seq<Byte>, e: Event,
                     blockTime: nat) {
    message == SignatureBytes(By(key, TextHash(RelayDigest(chainId,
      FdcMessageHash(chainId, request, Raw(body), e.cosigners, e.cosignersThreshold, blockTime)))))
  }

  /** The message is somebody's signature over a bare FDC message, which no home relay accepts. */
  predicate EndorsesBare(message: Bytes) {
    message.SignatureBytes? && message.signature.By? && message.signature.hash.TextHash? &&
    message.signature.hash.inner.FdcMessageHash?
  }

  /** The signatures are the key's, one for each TEE, each over the instruction with that TEE's id. */
  predicate SignedForEach(v: Value, key: PublicKey, chainId: nat) {
    && |v.signatures| == |v.tees|
    && forall j | 0 <= j < |v.tees| ::
         v.signatures[j] == By(key, TextHash(InstructionHash(chainId, v.data.(teeId := v.tees[j].teeId))))
  }

  lemma SignAllForEach(v: Value, key: PublicKey, chainId: nat)
    requires v.signatures == SignAll(key, Hashes(v, chainId))
    ensures SignedForEach(v, key, chainId)
  {
    var hashes := Hashes(v, chainId);
    assert forall j | 0 <= j < |v.tees| :: SignAll(key, hashes)[j] == By(key, TextHash(hashes[j]));
  }

  /** What a clean emission holds, written out. */
  lemma CleanExactly(h: Handler, origin: Value, body: seq<Byte>)
    requires origin.data.originalMessage.RequestDoc?
    ensures var clean, request := CleanEmission(h, origin, body), origin.data.originalMessage.request;
            && clean.event == origin.event && clean.tees == origin.tees
            && clean.data == origin.data.(fixedMessage := Raw(body), variableMessage := clean.data.variableMessage)
            && Endorses(clean.data.variableMessage, h.signer.key, h.chainId, request, body, origin.event,
                        origin.data.timestamp)
            && !EndorsesBare(clean.data.variableMessage)
            && SignedForEach(clean, h.signer.key, h.chainId)
  {
    var clean := CleanEmission(h, origin, body);
    assert Hashes(clean, h.chainId) == Hashes(clean.(signatures := []), h.chainId);
    SignAllForEach(clean, h.signer.key, h.chainId);
  }

  /** Nothing fails, the verifier answers `exchange`, and the signer service is honest. */
  predicate FailureFree(h: Handler, origin: Value, body: seq<Byte>, oracle: Oracle)
    requires origin.data.originalMessage.RequestDoc?
  {
    var clean := CleanEmission(h, origin, body);
    var digest := ResponseDigest(h, clean, origin.data.originalMessage.request);
    && oracle(AtDecode).Works? && oracle(AtHashResponse).Works? && oracle(AtHashTees).Works? && oracle(AtSend).Works?
    && oracle(AtQuery).Posted? && Verifier.VerifiedBody(oracle(AtQuery).exchange) == Some(body)
    && oracle(AtSignResponse) == Replied(Signatures(SignAll(h.signer.key, [digest])))
    && oracle(AtSignTees) == Replied(Signatures(SignAll(h.signer.key, Hashes(clean, h.chainId))))
  }

  /** One failure-free Handle of a freshly parsed instruction emits exactly CleanEmission. */
  lemma CleanAttempt(h: Handler, origin: Value, body: seq<Byte>, oracle: Oracle)
    requires origin.data.originalMessage.RequestDoc? && origin.data.fixedMessage == EMPTY
    requires FdcTables.AttTypeAndSourceID(origin.data.originalMessage.request) in h.servers
    requires FailureFree(h, origin, body, oracle)
    ensures Run(h, origin, Decode, oracle) == Emitted(CleanEmission(h, origin, body))
    ensures var v := Run(h, origin, Decode, oracle).value;
            && v.data.fixedMessage == Raw(body)
            && Endorses(v.data.variableMessage, h.signer.key, h.chainId, origin.data.originalMessage.request, body,
                        origin.event, origin.data.timestamp)
            && !EndorsesBare(v.data.variableMessage) && SignedForEach(v, h.signer.key, h.chainId)
  {
    var request := origin.data.originalMessage.request;
    var v1 := origin.(data := origin.data.(fixedMessage := Raw(body)));
    var digest := ResponseDigest(h, v1, request);
    var v2 := v1.(data := v1.data.(variableMessage := SignatureBytes(By(h.signer.key, TextHash(digest)))));
    var clean := CleanEmission(h, origin, body);
    CleanExactly(h, origin, body);
    assert ResponseDigest(h, clean, request) == digest;
    assert Hashes(clean, h.chainId) == Hashes(v2, h.chainId);
    assert SignAll(h.signer.key, [digest]) == [By(h.signer.key, TextHash(digest))];
    assert Run(h, origin, Decode, oracle) == Run(h, origin, Query(request), oracle);
    assert Run(h, origin, Query(request), oracle) == Run(h, v1, HashResponse(request), oracle);
    assert Run(h, v1, HashResponse(request), oracle) == Run(h, v1, SignResponse(digest), oracle);
    assert Run(h, v1, SignResponse(digest), oracle) == Run(h, v2, HashTees, oracle);
    assert Run(h, v2, HashTees, oracle) == Run(h, v2, SignTees(Hashes(v2, h.chainId)), oracle);
    assert Run(h, v2, SignTees(Hashes(v2, h.chainId)), oracle) == Run(h, clean, Send, oracle);
  }
}
