/** Handling of one dequeued FDC2 instruction.

    Advance is one uninterruptible step of a processor on an instruction; Run strings the steps of one
    attempt together. The imperative Handle is proved to be Run; the concurrent model of the pipeline
    interleaves the same steps. */
module FdcHandler {
  import opened Terms
  import opened Signers
  import opened Instructions
  import Verifier
  import Post
  import FdcTables

  datatype Handler = Handler(chainId: nat, signer: Signer, servers: map<seq<Byte>, FdcTables.Server>)

  type Exchange = Post.Schedule<Verifier.Response>

  /** How the environment answers a step. Panics: a panic inside the call made by the step;
      PanicsAfterPosts: one inside the verifier query, after its HTTP exchange. */
  datatype Answer =
    | Works | Fails | Panics
    | Posted(exchange: Exchange) | PanicsAfterPosts(exchange: Exchange)
    | Replied(reply: Reply)
    | Fetched(fixed: Bytes, variable: Option<Bytes>) | NothingToSend

  /** Where a processor stands, with the local variables it needs from there on. */
  datatype Pc =
    | Decode
    | Query(request: FdcRequest)
    | HashResponse(request: FdcRequest)
    | SignResponse(digest: Hash)
    | Fetch
    | HashTees
    | SignTees(hashes: seq<Hash>)
    | Send

  datatype Stage = AtDecode | AtQuery | AtHashResponse | AtSignResponse | AtFetch | AtHashTees | AtSignTees | AtSend

  function StageOf(pc: Pc): Stage {
    match pc
    case Decode => AtDecode
    case Query(_) => AtQuery
    case HashResponse(_) => AtHashResponse
    case SignResponse(_) => AtSignResponse
    case Fetch => AtFetch
    case HashTees => AtHashTees
    case SignTees(_) => AtSignTees
    case Send => AtSend
  }

  function StepsLeft(pc: Pc): (n: nat)
    ensures 1 <= n <= 7
  {
    match pc
    case Decode => 7
    case Query(_) => 6
    case HashResponse(_) => 5
    case SignResponse(_) | Fetch => 4
    case HashTees => 3
    case SignTees(_) => 2
    case Send => 1
  }

  datatype Progress =
    | Next(value: Value, pc: Pc)
    | Failed(value: Value)
    | Panicked(value: Value)
    | Closed(value: Value)
    | Emitted(value: Value)

  function ReplyOf(a: Answer): Reply {
    if a.Replied? then a.reply else Unavailable
  }

  /** The digest the relay signs for the verified response: home-chain Relay Mode 2. */
  function ResponseDigest(h: Handler, v: Value, request: FdcRequest): Hash {
    RelayDigest(h.chainId, FdcMessageHash(h.chainId, request, v.data.fixedMessage,
                                          v.event.cosigners, v.event.cosignersThreshold, v.data.timestamp))
  }

  function Advance(h: Handler, v: Value, pc: Pc, a: Answer): (p: Progress)
    ensures p.Next? ==> StepsLeft(p.pc) < StepsLeft(pc)
  {
    if a.Panics? || (a.PanicsAfterPosts? && pc.Query?) then Panicked(v) else
    match pc
    case Decode =>
      (match FdcTables.DecodeRequest(v.data.originalMessage)
       case None => Failed(v)
       case Some(request) =>
         if FdcTables.ServerFor(h.servers, request).None? then Failed(v)
         else if v.data.fixedMessage == EMPTY then Next(v, Query(request))
         else Next(v, HashResponse(request)))
    case Query(request) =>
      if !a.Posted? then Failed(v) else
      (match Verifier.Respond(a.exchange)
       case Err(_) => Failed(v)
       case Ok(res) =>
         if res.status == Verifier.VERIFIED then
           Next(v.(data := v.data.(fixedMessage := Raw(res.body))), HashResponse(request))
         else if res.status == Verifier.REJECTED then Closed(v)
         else Failed(v))
    case HashResponse(request) =>
      if a.Fails? then Failed(v) else Next(v, SignResponse(ResponseDigest(h, v, request)))
    case SignResponse(digest) =>
      (match Call(h.signer, [digest], ReplyOf(a))
       case Err(_) => Failed(v)
       case Ok(signatures) =>
         if |signatures| != 1 then Failed(v)
         else Next(v.(data := v.data.(variableMessage := SignatureBytes(signatures[0]))), HashTees))
    case Fetch =>
      (match a
       case Fetched(fixed, variable) =>
         Next(v.(data := v.data.(fixedMessage := fixed,
                                 variableMessage := if variable.Some? then variable.value else v.data.variableMessage)),
              HashTees)
       case NothingToSend => Closed(v)
       case _ => Failed(v))
    case HashTees =>
      if a.Fails? && v.tees != [] then Failed(v) else Next(v, SignTees(Hashes(v, h.chainId)))
    case SignTees(hashes) =>
      (match Call(h.signer, hashes, ReplyOf(a))
       case Err(_) => Failed(v)
       case Ok(signatures) => Next(v.(signatures := signatures), Send))
    case Send =>
      if a.Fails? then Failed(v) else Emitted(v)
  }

  type Oracle = Stage -> Answer

  /** One attempt from pc to its end, all steps answered by `oracle`. */
  function Run(h: Handler, v: Value, pc: Pc, oracle: Oracle): (p: Progress)
    ensures !p.Next?
    decreases StepsLeft(pc)
  {
    var p := Advance(h, v, pc, oracle(StageOf(pc)));
    if p.Next? then Run(h, p.value, p.pc, oracle) else p
  }

  /** The channel of finished instructions. */
  class Outlet {
    var sent: seq<Base>
    constructor ()
      ensures sent == []
    {
      sent := [];
    }
  }

  datatype Outcome = Success | Dropped | Error(reason: string) | Panic

  predicate Reports(o: Outcome, p: Progress) {
    match p
    case Emitted(_) => o.Success?
    case Closed(_) => o.Dropped?
    case Panicked(_) => o.Panic?
    case _ => o.Error?
  }

  /** Handle writes the object field by field; every early return leaves it as the step left it. */
  method Handle(h: Handler, ib: Base, out: Outlet, oracle: Oracle) returns (o: Outcome)
    modifies ib, out
    ensures ib.Contents() == Run(h, old(ib.Contents()), Decode, oracle).value
    ensures Reports(o, Run(h, old(ib.Contents()), Decode, oracle))
    ensures out.sent == old(out.sent) + if o.Success? then [ib] else []
  {
    ghost var start := ib.Contents();
    if oracle(AtDecode).Panics? {
      return Panic;
    }
    var decoded := FdcTables.DecodeRequest(ib.data.originalMessage);
    if decoded.None? {
      return Error("decoding request");
    }
    var request := decoded.value;
    if FdcTables.ServerFor(h.servers, request).None? {
      return Error("no verifier");
    }
    if ib.data.fixedMessage == EMPTY {
      assert Run(h, start, Decode, oracle) == Run(h, ib.Contents(), Query(request), oracle);
      var answer := oracle(AtQuery);
      if answer.Panics? || answer.PanicsAfterPosts? {
        return Panic;
      }
      if !answer.Posted? {
        return Error("getting attestation response");
      }
      var res := Verifier.Respond(answer.exchange);
      if res.Err? {
        return Error("getting attestation response");
      }
      if res.value.status == Verifier.RETRY {
        return Error("verifier status RETRY");
      }
      if res.value.status == Verifier.REJECTED {
        return Dropped;
      }
      if res.value.status != Verifier.VERIFIED {
        return Error("unknown verifier status");
      }
      ib.data := ib.data.(fixedMessage := Raw(res.value.body));
    }
    assert Run(h, start, Decode, oracle) == Run(h, ib.Contents(), HashResponse(request), oracle);
    if oracle(AtHashResponse).Panics? {
      return Panic;
    }
    if oracle(AtHashResponse).Fails? {
      return Error("hashing fdc message");
    }
    var messageHash := FdcMessageHash(h.chainId, request, ib.data.fixedMessage, ib.event.cosigners,
                                      ib.event.cosignersThreshold, ib.data.timestamp);
    var hashToBeSigned := RelayDigest(h.chainId, messageHash);
    assert Run(h, start, Decode, oracle) == Run(h, ib.Contents(), SignResponse(hashToBeSigned), oracle);
    if oracle(AtSignResponse).Panics? {
      return Panic;
    }
    var signature := Call(h.signer, [hashToBeSigned], ReplyOf(oracle(AtSignResponse)));
    if signature.Err? {
      return Error("signing response");
    }
    if |signature.value| != 1 {
      return Error("expected 1 signature");
    }
    ib.data := ib.data.(variableMessage := SignatureBytes(signature.value[0]));
    assert Run(h, start, Decode, oracle) == Run(h, ib.Contents(), HashTees, oracle);
    o := SignAndSend(h, ib, out, oracle);
  }

  /** ib.Sign followed by the send: the tail every processor shares. */
  method SignAndSend(h: Handler, ib: Base, out: Outlet, oracle: Oracle) returns (o: Outcome)
    modifies ib`signatures, out
    ensures ib.Contents() == Run(h, old(ib.Contents()), HashTees, oracle).value
    ensures Reports(o, Run(h, old(ib.Contents()), HashTees, oracle))
    ensures out.sent == old(out.sent) + if o.Success? then [ib] else []
  {
    ghost var start := ib.Contents();
    ghost var hashes := Hashes(start, h.chainId);
    if oracle(AtHashTees).Panics? {
      return Panic;
    }
    var hashing := !oracle(AtHashTees).Fails? || ib.tees == [];
    if hashing && oracle(AtSignTees).Panics? {
      assert Run(h, start, HashTees, oracle) == Run(h, start, SignTees(hashes), oracle);
      return Panic;
    }
    var signed := ib.Sign(h.signer, h.chainId, if hashing then None else Some(0), ReplyOf(oracle(AtSignTees)));
    if hashing {
      assert Run(h, start, HashTees, oracle) == Run(h, start, SignTees(hashes), oracle);
    }
    if !signed {
      return Error("signing instruction");
    }
    assert Run(h, start, HashTees, oracle) == Run(h, ib.Contents(), Send, oracle);
    if oracle(AtSend).Panics? {
      return Panic;
    }
    if oracle(AtSend).Fails? {
      return Error("context cancelled");
    }
    out.sent := out.sent + [ib];
    return Success;
  }

  /** wrapHandle: the queue sees a panic as an ordinary error of the attempt, never a crash. */
  method WrapHandle(h: Handler, ib: Base, out: Outlet, oracle: Oracle) returns (error: Option<string>)
    modifies ib, out
    ensures var p := Run(h, old(ib.Contents()), Decode, oracle);
            && ib.Contents() == p.value
            && (error.Some? <==> p.Failed? || p.Panicked?)
            && out.sent == old(out.sent) + if p.Emitted? then [ib] else []
  {
    var o := Handle(h, ib, out, oracle);
    match o
    case Success => return None;
    case Dropped => return None;
    case Error(reason) => return Some("instruction: " + reason);
    case Panic => return Some("instruction: recovered panic");
  }

  /** processors.Base.Process for plain instructions; `out` is nil until SetOut. */
  method ProcessPlain(h: Handler, ib: Base, out: Outlet?, oracle: Oracle) returns (o: Outcome)
    modifies ib`signatures, out
    ensures out == null ==> o.Error? && ib.Contents() == old(ib.Contents())
    ensures out != null ==>
              && ib.Contents() == Run(h, old(ib.Contents()), HashTees, oracle).value
              && Reports(o, Run(h, old(ib.Contents()), HashTees, oracle))
              && out.sent == old(out.sent) + if o.Success? then [ib] else []
  {
    if out == null {
      return Error("out channel not set");
    }
    o := SignAndSend(h, ib, out, oracle);
  }
}
