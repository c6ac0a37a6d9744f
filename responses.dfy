/**
 * How the two POST handlers of src/app.ts turn one device outcome into the
 * public HTTP response: the shared `text`/`ok` mapping and the `catch`
 * block's timeout classification.
 */
module Responses {
  import opened Wrappers
  import opened Device

  /** The response bodies the handlers send */
  datatype Body =
    | Text(text: string)                                               // `res.send(text || 'OK')`
    | Invalid(error: string)                                           // `{ error }`
    | Upstream(error: string, upstreamStatus: int, upstreamBody: string) // `{ error, status, body }`
    | Unreachable(error: string, message: string)                      // `{ error, message }`

  datatype HttpResponse = HttpResponse(status: int, body: Body)

  const InvalidNameResponse: HttpResponse := HttpResponse(400, Invalid("Invalid sequence name"))
  const InvalidSlotResponse: HttpResponse := HttpResponse(400, Invalid("Invalid slot number"))
  const UpstreamErrorText: string := "FPP responded with error"
  const UnreachableText: string := "Failed to reach FPP"

  /** ASCII case folding, which is all `/abort/i` can need: no non-ASCII character folds onto an ASCII letter */
  function AsciiLower(c: char): char {
    if 'A' <= c <= 'Z' then (c as int + 32) as char else c
  }

  /** "abort" occurs, ignoring case, at position `i` of `s` */
  predicate AbortAt(s: string, i: int) {
    0 <= i && i + 5 <= |s|
    && AsciiLower(s[i]) == 'a' && AsciiLower(s[i + 1]) == 'b' && AsciiLower(s[i + 2]) == 'o'
    && AsciiLower(s[i + 3]) == 'r' && AsciiLower(s[i + 4]) == 't'
  }

  /** `/abort/i.test(s)`, as a left-to-right scan */
  predicate MentionsAbort(s: string)
    decreases |s|
  {
    |s| >= 5 && (AbortAt(s, 0) || MentionsAbort(s[1..]))
  }

  lemma {:induction false} MentionsAbortIff(s: string)
    ensures MentionsAbort(s) <==> exists i :: AbortAt(s, i)
    decreases |s|
  {
    if |s| >= 5 {
      MentionsAbortIff(s[1..]);
      if exists i :: AbortAt(s[1..], i) {
        var i :| AbortAt(s[1..], i);
        assert AbortAt(s, i + 1);
      }
      if exists i :: AbortAt(s, i) {
        var i :| AbortAt(s, i);
        if i > 0 { assert AbortAt(s[1..], i - 1); }
      }
    } else {
      assert forall i :: !AbortAt(s, i);
    }
  }

  /** `err.name === 'TimeoutError' || /abort/i.test(err.message)` */
  predicate IsTimeout(name: string, message: string) {
    name == "TimeoutError" || MentionsAbort(message)
  }

  /** `String(err)` for an Error: `Error.prototype.toString` joins the name and the message with ": ", dropping an empty one */
  function ErrorToString(name: string, message: string): (t: string)
    ensures t == "" <==> name == "" && message == ""
    ensures |message| <= |t| && t[|t| - |message|..] == message
  {
    if name == "" then message
    else if message == "" then name
    else name + ": " + message
  }

  /** `err?.message || String(err)`: an Error whose message is empty prints as its name */
  function ErrorMessage(name: string, message: string): (m: string)
    ensures message != "" ==> m == message
    ensures message == "" ==> m == name
  {
    if message != "" then message else ErrorToString(name, message)
  }

  /** The public response for the outcome of a handler's last awaited device call */
  function RespondTo(reply: Reply): (r: HttpResponse)
    ensures r.status == 200 <==> reply.Response? && IsOk(reply.status)
    ensures r.status == 502 <==> reply.Response? && !IsOk(reply.status)
    ensures r.status == 504 <==> reply.TransportFailure? && IsTimeout(reply.name, reply.message)
    ensures r.status == 500 <==> reply.TransportFailure? && !IsTimeout(reply.name, reply.message)
    ensures r.status == 200 ==> r.body.Text? && r.body.text != ""
    ensures r.status == 200 && BodyText(reply.body) != "" ==> r.body == Text(BodyText(reply.body))
    ensures r.status == 200 && BodyText(reply.body) == "" ==> r.body == Text("OK")
    ensures r.status == 502 ==> r.body == Upstream(UpstreamErrorText, reply.status, BodyText(reply.body))
    ensures reply.TransportFailure? ==> r.body == Unreachable(UnreachableText, ErrorMessage(reply.name, reply.message))
  {
    match reply
    case Response(status, body) =>
      var text := BodyText(body);
      if !IsOk(status) then HttpResponse(502, Upstream(UpstreamErrorText, status, text))
      else HttpResponse(200, Text(if text == "" then "OK" else text))
    case TransportFailure(name, message) =>
      HttpResponse(if IsTimeout(name, message) then 504 else 500,
                   Unreachable(UnreachableText, ErrorMessage(name, message)))
  }

  /** A transport failure is reported as a timeout exactly when its name is TimeoutError or its message contains "abort" in any case */
  lemma TimeoutClassification(name: string, message: string)
    ensures RespondTo(TransportFailure(name, message)).status == 504
      <==> name == "TimeoutError" || exists i :: AbortAt(message, i)
  {
    MentionsAbortIff(message);
  }

  /** An empty body, an unreadable body and a literal "OK" body are indistinguishable to the caller */
  lemma EmptyBodyLooksLikeOk(status: int)
    requires IsOk(status)
    ensures RespondTo(Response(status, Some(""))) == RespondTo(Response(status, None))
    ensures RespondTo(Response(status, None)) == RespondTo(Response(status, Some("OK")))
  {
  }

  /**
   * Apart from that ambiguity, and from every 2xx status reading as 200, the
   * public response determines the device's answer: its body text, and its
   * status when that is not 2xx.
   */
  lemma ResponseDeterminesReply(a: Reply, b: Reply)
    requires a.Response? && b.Response? && BodyText(a.body) != "" && BodyText(b.body) != ""
    requires RespondTo(a) == RespondTo(b)
    ensures IsOk(a.status) <==> IsOk(b.status)
    ensures BodyText(a.body) == BodyText(b.body)
    ensures !IsOk(a.status) ==> a.status == b.status
  {
  }
}
