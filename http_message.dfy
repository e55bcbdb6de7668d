/** The foreign types the binding exchanges with its HTTP transport: a PSR-7
    response as the transport hands it back, the decoded JSON body, and the
    transport's request exceptions. Their behaviour belongs to the transport
    library; only what the binding reads from them is modelled. */
module Http {
  import opened Wrappers
  import opened Php

  /** What `json_decode($contents)` yields without the associative flag:
      JSON objects become property bags, JSON arrays become lists. Numbers
      are opaque. */
  datatype Json =
    | JNull
    | JBool(b: bool)
    | JNumber(literal: string)
    | JString(s: string)
    | JList(items: seq<Json>)
    | JObject(props: map<string, Json>)

  datatype HeaderField = HeaderField(name: string, values: seq<string>)

  /** A PSR-7 response, with the body as its full string contents. */
  datatype HttpResponse = HttpResponse(
    statusCode: int,
    reasonPhrase: string,
    protocolVersion: string,
    headers: seq<HeaderField>,
    body: string)
  {
    /** The values of every header field whose name matches `name` ignoring
        ASCII case; empty when there is none. */
    function HeaderValues(name: string): seq<string>
    {
      ValuesNamed(headers, name)
    }

    predicate HasHeaderNamed(name: string)
    {
      exists i :: 0 <= i < |headers| && EqualsIgnoringCase(headers[i].name, name)
    }

    /** The header's values joined by ", "; empty when there is none. */
    function HeaderLineOf(name: string): string
    {
      Join(HeaderValues(name), ", ")
    }
  }

  function ValuesNamed(fields: seq<HeaderField>, name: string): seq<string>
  {
    if fields == [] then []
    else (if EqualsIgnoringCase(fields[0].name, name) then fields[0].values else [])
         + ValuesNamed(fields[1..], name)
  }

  /** A transport `RequestException` (Guzzle's `ServerException`,
      `ClientException` and the others): message, code and the response
      that came with it, if any. */
  datatype TransportError = TransportError(message: string, code: int, response: Option<HttpResponse>)
}
