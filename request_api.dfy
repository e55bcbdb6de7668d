/** `Request_Api`: a base class for WordPress-transport API clients. Its
    verb helpers stamp `method` into the request arguments, `request`
    decides between a transport error, an unexpected status code and an
    accepted response, and `has_proper_response_body` checks a decoded
    body for required keys. */
module RequestApi {
  import opened Wrappers
  import opened Php

  const GetResponseCode := 200
  const PostResponseCode := 200
  const OAuthPostResponseCode := 200
  const PatchResponseCode := 204
  const PutResponseCode := 200

  const MethodKey := Name("method")
  const UnexpectedCodeMessage := "Response code is not the expected one."

  /** What `wp_remote_request` returns: a `WP_Error`, or a response whose
      code `wp_remote_retrieve_response_code` reads as an integer, or as ""
      when the response is malformed. */
  datatype WpReply =
    | WpError(errorCode: Value, errorMessage: string)
    | WpResponse(responseCode: Value, body: string)

  /** How `request` ends: the transport's error; a new error whose code is
      the received status code; or the response itself. */
  datatype RequestResult =
    | TransportError(error: WpReply)
    | UnexpectedCode(code: Value, message: string, expected: Value, received: Value)
    | Accepted(response: WpReply)

  /** What reaches `wp_remote_request`, and what comes back from `request`. */
  datatype Dispatch = Dispatch(url: string, args: Array, result: RequestResult)

  /** The decision `request` makes once the transport has answered; a null
      expected code accepts any status code, otherwise the codes are
      compared with `!==`, so an integer never equals a string. */
  function Decide(expectCode: Value, reply: WpReply): (r: RequestResult)
    ensures reply.WpError? ==> r == TransportError(reply)
    ensures reply.WpResponse? ==>
              (r.UnexpectedCode? <==> expectCode != Null && expectCode != reply.responseCode)
    ensures r.UnexpectedCode? ==>
              r.code == reply.responseCode && r.received == reply.responseCode
              && r.expected == expectCode && r.message == UnexpectedCodeMessage
    ensures reply.WpResponse? && !r.UnexpectedCode? ==> r == Accepted(reply)
  {
    match reply
    case WpError(_, _) => TransportError(reply)
    case WpResponse(code, _) =>
      if expectCode != Null && expectCode != code then UnexpectedCode(code, UnexpectedCodeMessage, expectCode, code)
      else Accepted(reply)
  }

  /** `request($url, $args, $expect_code)`, with the filters passing the
      request through. */
  function Request(url: string, args: Array, reply: WpReply, expectCode: Value := Int(GetResponseCode)): (d: Dispatch)
  {
    Dispatch(url, args, Decide(expectCode, reply))
  }

  /** `$args['method'] = $verb`. */
  function WithMethod(args: Array, verb: string): (r: Array)
    ensures Lookup(r, MethodKey) == Some(Str(verb))
    ensures forall k :: k != MethodKey ==> Lookup(r, k) == Lookup(args, k)
    ensures WellFormed(args) ==> WellFormed(r)
  {
    Set(args, MethodKey, Str(verb))
  }

  /** `post`: `method` becomes POST whatever the caller put there; 200 is
      expected unless the caller says otherwise. */
  function Post(url: string, args: Array, reply: WpReply, expectCode: Value := Int(PostResponseCode)): (d: Dispatch)
    ensures Lookup(d.args, MethodKey) == Some(Str("POST"))
    ensures forall k :: k != MethodKey ==> Lookup(d.args, k) == Lookup(args, k)
    ensures d.url == url && d.result == Decide(expectCode, reply)
  {
    Request(url, WithMethod(args, "POST"), reply, expectCode)
  }

  /** `patch`: `method` becomes PATCH; 204 is expected by default. */
  function Patch(url: string, args: Array, reply: WpReply, expectCode: Value := Int(PatchResponseCode)): (d: Dispatch)
    ensures Lookup(d.args, MethodKey) == Some(Str("PATCH"))
    ensures forall k :: k != MethodKey ==> Lookup(d.args, k) == Lookup(args, k)
    ensures d.url == url && d.result == Decide(expectCode, reply)
  {
    Request(url, WithMethod(args, "PATCH"), reply, expectCode)
  }

  /** `put`: `method` becomes PUT; 200 is expected by default. */
  function Put(url: string, args: Array, reply: WpReply, expectCode: Value := Int(PutResponseCode)): (d: Dispatch)
    ensures Lookup(d.args, MethodKey) == Some(Str("PUT"))
    ensures forall k :: k != MethodKey ==> Lookup(d.args, k) == Lookup(args, k)
    ensures d.url == url && d.result == Decide(expectCode, reply)
  {
    Request(url, WithMethod(args, "PUT"), reply, expectCode)
  }

  /** `get`: `method` becomes GET; 200 is expected by default. */
  function Get(url: string, args: Array, reply: WpReply, expectCode: Value := Int(GetResponseCode)): (d: Dispatch)
    ensures Lookup(d.args, MethodKey) == Some(Str("GET"))
    ensures forall k :: k != MethodKey ==> Lookup(d.args, k) == Lookup(args, k)
    ensures d.url == url && d.result == Decide(expectCode, reply)
  {
    Request(url, WithMethod(args, "GET"), reply, expectCode)
  }

  /** With the default expected codes: a PATCH answered 200 is an error
      carrying 200, while a POST, PUT or GET answered 200 is accepted; a
      null expected code accepts even a 500. */
  lemma DefaultExpectedCodes(url: string, args: Array, body: string)
    ensures var ok := WpResponse(Int(200), body);
            && Post(url, args, ok).result == Accepted(ok)
            && Put(url, args, ok).result == Accepted(ok)
            && Get(url, args, ok).result == Accepted(ok)
            && Patch(url, args, ok).result == UnexpectedCode(Int(200), UnexpectedCodeMessage, Int(204), Int(200))
    ensures Patch(url, args, WpResponse(Int(204), body)).result == Accepted(WpResponse(Int(204), body))
    ensures Post(url, args, WpResponse(Int(500), body), Null).result == Accepted(WpResponse(Int(500), body))
  {
  }

  /** Whatever the expected code, an accepted reply is the transport's reply
      unchanged and a `WP_Error` is never turned into anything else; a reply
      is accepted exactly when its code is the expected one or none is
      expected; and a reply the code check refuses would have been accepted
      with no expected code. */
  lemma RequestKeepsAcceptedReplies(expectCode: Value, reply: WpReply)
    ensures Decide(expectCode, reply).Accepted? ==> Decide(expectCode, reply).response == reply && reply.WpResponse?
    ensures Decide(expectCode, reply).TransportError? <==> reply.WpError?
    ensures reply.WpResponse? ==>
              (Decide(expectCode, reply).Accepted? <==> expectCode == Null || expectCode == reply.responseCode)
    ensures Decide(expectCode, reply).UnexpectedCode? ==> Decide(Null, reply) == Accepted(reply)
    ensures Decide(Null, reply).UnexpectedCode? == false
  {
  }

  /** The four verb helpers send the same request up to `method`. */
  lemma VerbsDifferOnlyInMethod(url: string, args: Array, reply: WpReply, expectCode: Value)
    ensures var p := Post(url, args, reply, expectCode);
            var g := Get(url, args, reply, expectCode);
            p.url == g.url && p.result == g.result
            && (forall k :: k != MethodKey ==> Lookup(p.args, k) == Lookup(g.args, k))
            && Lookup(p.args, MethodKey) != Lookup(g.args, MethodKey)
    ensures Patch(url, args, reply, expectCode).result == Put(url, args, reply, expectCode).result
  {
    assert Str("POST") != Str("GET") by { assert |"POST"| != |"GET"|; }
  }

  // ---------------------------------------------------------------------
  // has_proper_response_body

  /** `array_diff_key(array_flip($checks), $body)`, as the checks that are
      not keys of `body`, in order. */
  function MissingChecks(checks: seq<Key>, body: Array): (missing: seq<Key>)
    ensures forall i :: 0 <= i < |missing| ==> missing[i] in checks && !KeyExists(body, missing[i])
    ensures forall i :: 0 <= i < |checks| && !KeyExists(body, checks[i]) ==> checks[i] in missing
    ensures missing == [] <==> forall i :: 0 <= i < |checks| ==> KeyExists(body, checks[i])
  {
    if checks == [] then []
    else
      var rest := MissingChecks(checks[1..], body);
      if KeyExists(body, checks[0]) then rest else [checks[0]] + rest
  }

  /** `has_proper_response_body($body, $checks)`, the checks given as the
      keys they flip into. */
  function HasProperResponseBody(body: Value, checks: seq<Key> := []): (ok: bool)
    ensures Empty(body) || !body.Arr? ==> !ok
    ensures !Empty(body) && body.Arr? && checks == [] ==> ok
    ensures !Empty(body) && body.Arr? ==>
              (ok <==> forall i :: 0 <= i < |checks| ==> KeyExists(body.entries, checks[i]))
  {
    if Empty(body) || !body.Arr? then false
    else if checks == [] then true
    else MissingChecks(checks, body.entries) == []
  }

  /** Only the keys count, not their values: a body whose checked key holds
      null passes, and a body missing one checked key fails. */
  lemma ValuesAreNotChecked(k: Key, other: Key)
    requires k != other
    ensures HasProperResponseBody(Arr([Entry(k, Null)]), [k])
    ensures !HasProperResponseBody(Arr([Entry(k, Null)]), [k, other])
  {
    var body := [Entry(k, Null)];
    assert body[0].key != other && body[1..] == [];
    assert Lookup(body, other) == Lookup(body[1..], other) == None;
    assert [k, other][1] == other;
  }
}
