/** The verifier's wire contract. */
module Verifier {
  import opened Terms
  import Post

  const VERIFIED := "VERIFIED"
  const RETRY := "RETRY"
  const REJECTED := "REJECTED"

  datatype Response = Response(status: string, body: seq<Byte>, message: string)

  datatype Violation = EmptyResponseBody | ResponseBodyTooBig | UnknownStatus(quoted: string) | PostFailed(text: string)

  const MAX_MESSAGE_LEN := 1024
  const MAX_STATUS_LEN := 64
  const MAX_BODY_LEN := 102400 // the TEEs' 100 KiB instruction size limit
  const MAX_POSTS := 3        // retry.Params.MaxAttempts in NewVerifier

  function TruncateText(s: string, n: nat): (r: string)
    ensures |r| <= n + 3 && (|s| <= n ==> r == s) && (|s| > n ==> n <= |r| && r[..n] == s[..n])
  {
    if |s| <= n then s else s[..n] + "..."
  }

  // ---------- decoding ----------

  /** The responseBody member of the JSON object. */
  datatype WireBody = Absent | Null | Hex(octets: seq<Byte>) | Malformed

  datatype Wire = Wire(status: string, body: WireBody, message: string)

  class Decoded {
    var status: string
    var body: seq<Byte>
    var message: string

    /** Decodes into the receiver; whatever it held before does not survive a successful call. */
    method UnmarshalJSON(w: Wire) returns (ok: bool)
      modifies this
      ensures ok <==> !w.body.Malformed?
      ensures status == w.status && message == w.message
      ensures body == if w.body.Hex? then w.body.octets else []
    {
      status, message, body := w.status, w.message, [];
      if w.body.Absent? || w.body.Null? {
        return true;
      }
      if w.body.Malformed? {
        return false;
      }
      body := w.body.octets;
      return true;
    }
  }

  // ---------- validation ----------

  function Validate(res: Response): Result<Response, Violation> {
    var r := res.(message := TruncateText(res.message, MAX_MESSAGE_LEN));
    if r.status == VERIFIED then
      if |r.body| == 0 then Err(EmptyResponseBody)
      else if |r.body| > MAX_BODY_LEN then Err(ResponseBodyTooBig)
      else Ok(r)
    else if r.status == RETRY || r.status == REJECTED then Ok(r)
    else Err(UnknownStatus(TruncateText(r.status, MAX_STATUS_LEN)))
  }

  /** Exactly the responses the API allows pass, with status and body unchanged and bounded quotes. */
  lemma ValidateExactly(res: Response)
    ensures Validate(res).Ok? <==>
              res.status in {RETRY, REJECTED} || (res.status == VERIFIED && 0 < |res.body| <= MAX_BODY_LEN)
    ensures Validate(res).Ok? ==>
              var r := Validate(res).value;
              r.status == res.status && r.body == res.body && |r.message| <= MAX_MESSAGE_LEN + 3
    ensures Validate(res).Err? && Validate(res).error.UnknownStatus? ==>
              |Validate(res).error.quoted| <= MAX_STATUS_LEN + 3
  {
  }

  /** The type's comment promises a body iff VERIFIED; bodies of other verdicts are ignored, not
      rejected, so the promise holds of a validated response exactly when the server kept it. */
  lemma BodyIffVerified(res: Response)
    requires Validate(res).Ok?
    ensures (Validate(res).value.body != [] <==> Validate(res).value.status == VERIFIED)
            <==> (res.status != VERIFIED ==> res.body == [])
    ensures Validate(Response(RETRY, [1], "")) == Ok(Response(RETRY, [1], ""))
  {
  }

  /** One logical query: posts with retries, then validation. */
  function Respond(s: Post.Schedule<Response>): Result<Response, Violation> {
    match Post.Result(s, MAX_POSTS)
    case Response(m) => Validate(m)
    case MissingBody => Err(PostFailed("response missing body"))
    case Fault(text) => Err(PostFailed(text))
  }

  /** Whatever the server and the network do, a query that returns a response returns one of the three verdicts,
      and VERIFIED only with a body the TEEs accept: the handler's default case is unreachable. */
  lemma VerdictIsKnown(s: Post.Schedule<Response>)
    requires Respond(s).Ok?
    ensures Respond(s).value.status in {"VERIFIED", "RETRY", "REJECTED"}
    ensures Respond(s).value.status == "VERIFIED" ==> 0 < |Respond(s).value.body| <= 102400
    ensures |Respond(s).value.message| <= 1027
  {
    ValidateExactly(Post.Result(s, MAX_POSTS).message);
  }

  /** When the first post is answered with a decoded message, the query returns it exactly if it is RETRY,
      REJECTED, or VERIFIED with 1 to 102400 bytes; status and body are those sent, and the message is cut at
      1024 bytes. */
  lemma FirstAnswerDecides(s: Post.Schedule<Response>, m: Response)
    requires Post.Nth(s, 0) == Post.Decoded(Some(m)) && (s.budget.None? || s.budget.value > 0)
    ensures Respond(s).Ok? <==>
              m.status in {"RETRY", "REJECTED"} || (m.status == "VERIFIED" && 1 <= |m.body| <= 102400)
    ensures Respond(s).Ok? ==>
              && Respond(s).value.status == m.status && Respond(s).value.body == m.body
              && Respond(s).value.message == if |m.message| <= 1024 then m.message else m.message[..1024] + "..."
  {
    Post.RetriesExactly(s, 3, 0);
    ValidateExactly(m);
  }

  /** What is remembered of a query: exactly the body of a VERIFIED response. */
  lemma VerifiedBodyExactly(s: Post.Schedule<Response>)
    ensures VerifiedBody(s).Some? <==> Respond(s).Ok? && Respond(s).value.status == "VERIFIED"
    ensures VerifiedBody(s).Some? ==> VerifiedBody(s).value == Respond(s).value.body
  {
  }

  /** The body of a schedule whose query is answered VERIFIED. */
  function VerifiedBody(s: Post.Schedule<Response>): (body: Option<seq<Byte>>)
    ensures body.Some? ==> 0 < |body.value| <= MAX_BODY_LEN
  {
    match Respond(s)
    case Ok(r) => if r.status == VERIFIED then Some(r.body) else None
    case Err(_) => None
  }
}
