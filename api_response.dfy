/** `Api_Response`: wraps the transport's response, keeps its decoded
    body in the public `result`, exposes the body's fields through `__get`
    and array access, and forwards the PSR-7 accessors to the wrapped
    response. */
module ApiResponse {
  import opened Wrappers
  import opened Php
  import opened Http

  // ---------------------------------------------------------------------
  // The decoded body as a property bag

  /** `$result->{$name}`: the property's value; reading a missing property,
      or a property of something that is not an object, gives null. */
  function PropOf(j: Json, name: string): Json
  {
    if j.JObject? && name in j.props then j.props[name] else JNull
  }

  /** `isset($result->{$name})`. */
  predicate PropIsSet(j: Json, name: string)
  {
    j.JObject? && name in j.props && j.props[name] != JNull
  }

  /** `$result->{$name} = $value`: defined on objects only, since assigning
      a property of null or of a scalar raises an `Error`. */
  function WithProp(j: Json, name: string, v: Json): (r: Option<Json>)
    ensures r.Some? <==> j.JObject?
    ensures r.Some? ==> r.value.JObject? && r.value.props.Keys == j.props.Keys + {name}
  {
    if j.JObject? then Some(JObject(j.props[name := v])) else None
  }

  /** `unset($result->{$name})`: removes the property of an object; on
      anything else nothing happens. */
  function WithoutProp(j: Json, name: string): (r: Json)
    ensures j.JObject? <==> r.JObject?
    ensures r.JObject? ==> r.props.Keys == j.props.Keys - {name}
  {
    if j.JObject? then JObject(j.props - {name}) else j
  }

  /** `isset` agrees with `__get`: a property is set exactly when reading
      it gives something other than null. */
  lemma IssetIsNonNullRead(j: Json, name: string)
    ensures PropIsSet(j, name) <==> PropOf(j, name) != JNull
  {
  }

  /** After setting a property to a non-null value it is set and reads
      back as that value; every other property is unchanged. */
  lemma SetThenIsSet(j: Json, name: string, v: Json)
    requires j.JObject?
    ensures WithProp(j, name, v).Some?
    ensures PropOf(WithProp(j, name, v).value, name) == v
    ensures v != JNull ==> PropIsSet(WithProp(j, name, v).value, name)
    ensures forall other :: other != name ==> PropOf(WithProp(j, name, v).value, other) == PropOf(j, other)
  {
  }

  /** After unsetting a property it is no longer set; every other property
      is unchanged. */
  lemma UnsetThenNotSet(j: Json, name: string)
    ensures !PropIsSet(WithoutProp(j, name), name)
    ensures forall other :: other != name ==> PropOf(WithoutProp(j, name), other) == PropOf(j, other)
  {
  }

  /** `get_data_from_response`: the decoded contents, or null when the
      contents are "" or "0". */
  function ResultOf(body: string, decode: string -> Json): (r: Json)
    ensures !Truthy(body) ==> r == JNull
    ensures Truthy(body) ==> r == decode(body)
  {
    if Truthy(body) then decode(body) else JNull
  }

  // ---------------------------------------------------------------------
  // The wrapper object

  class ApiResponse {
    const response: HttpResponse
    var result: Json

    /** Wraps `response`; `decode` stands for `json_decode`. */
    constructor(response: HttpResponse, decode: string -> Json)
      ensures this.response == response
      ensures result == ResultOf(response.body, decode)
    {
      this.response := response;
      result := ResultOf(response.body, decode);
    }

    /** `__get($name)`. */
    function Get(name: string): (r: Json)
      reads this
      ensures result.JObject? && name in result.props ==> r == result.props[name]
      ensures !(result.JObject? && name in result.props) ==> r == JNull
    {
      PropOf(result, name)
    }

    /** `get_data()`: the decoded body as stored. */
    function GetData(): (r: Json)
      reads this
      ensures r == result
    {
      result
    }

    /** `offsetExists($offset)`. */
    predicate OffsetExists(offset: string)
      reads this
      ensures OffsetExists(offset) <==> Get(offset) != JNull
    {
      PropIsSet(result, offset)
    }

    /** `offsetSet($offset, $value)`; `ok` is false when PHP raises an
        `Error` because `result` is not an object, and then nothing
        changes. */
    method OffsetSet(offset: string, value: Json) returns (ok: bool)
      modifies this
      ensures ok <==> old(result).JObject?
      ensures ok ==> Some(result) == WithProp(old(result), offset, value)
      ensures !ok ==> result == old(result)
      ensures ok && value != JNull ==> OffsetExists(offset)
      ensures forall other :: other != offset ==> Get(other) == old(Get(other))
    {
      ok := result.JObject?;
      if ok {
        SetThenIsSet(result, offset, value);
        result := WithProp(result, offset, value).value;
      }
    }

    /** `offsetUnset($offset)`. */
    method OffsetUnset(offset: string)
      modifies this
      ensures result == WithoutProp(old(result), offset)
      ensures !OffsetExists(offset)
      ensures forall other :: other != offset ==> Get(other) == old(Get(other))
    {
      UnsetThenNotSet(result, offset);
      result := WithoutProp(result, offset);
    }

    // The PSR-7 accessors, forwarded to the wrapped response.

    function GetProtocolVersion(): (v: string)
      ensures v == response.protocolVersion
    {
      response.protocolVersion
    }

    function GetStatusCode(): (c: int)
      ensures c == response.statusCode
    {
      response.statusCode
    }

    function GetReasonPhrase(): (p: string)
      ensures p == response.reasonPhrase
    {
      response.reasonPhrase
    }

    function GetHeaders(): (h: seq<HeaderField>)
      ensures h == response.headers
    {
      response.headers
    }

    function GetBody(): (b: string)
      ensures b == response.body
    {
      response.body
    }

    function HasHeader(name: string): (b: bool)
      ensures b <==> exists i :: 0 <= i < |response.headers| && EqualsIgnoringCase(response.headers[i].name, name)
    {
      response.HasHeaderNamed(name)
    }

    function GetHeader(name: string): (vs: seq<string>)
      ensures !HasHeader(name) ==> vs == []
      ensures forall i :: 0 <= i < |response.headers| && EqualsIgnoringCase(response.headers[i].name, name) ==>
                forall v :: v in response.headers[i].values ==> v in vs
      ensures forall v :: v in vs ==>
                exists i :: 0 <= i < |response.headers| && EqualsIgnoringCase(response.headers[i].name, name)
                            && v in response.headers[i].values
      ensures vs == response.HeaderValues(name)
    {
      HeaderValuesShape(response.headers, name);
      response.HeaderValues(name)
    }

    function GetHeaderLine(name: string): (line: string)
      ensures !HasHeader(name) ==> line == ""
      ensures line == Join(GetHeader(name), ", ")
    {
      var values := GetHeader(name);
      assert values == response.HeaderValues(name);
      response.HeaderLineOf(name)
    }
  }

  /** The values gathered for a header name: none when no field matches,
      every value of every matching field otherwise, and nothing else. */
  lemma {:induction false} HeaderValuesShape(fields: seq<HeaderField>, name: string)
    ensures (forall i :: 0 <= i < |fields| ==> !EqualsIgnoringCase(fields[i].name, name)) ==> ValuesNamed(fields, name) == []
    ensures forall i :: 0 <= i < |fields| && EqualsIgnoringCase(fields[i].name, name) ==>
              forall v :: v in fields[i].values ==> v in ValuesNamed(fields, name)
    ensures forall v :: v in ValuesNamed(fields, name) ==>
              exists i :: 0 <= i < |fields| && EqualsIgnoringCase(fields[i].name, name) && v in fields[i].values
  {
    if fields != [] {
      HeaderValuesShape(fields[1..], name);
      forall v | v in ValuesNamed(fields, name)
        ensures exists i :: 0 <= i < |fields| && EqualsIgnoringCase(fields[i].name, name) && v in fields[i].values
      {
        if !(EqualsIgnoringCase(fields[0].name, name) && v in fields[0].values) {
          assert v in ValuesNamed(fields[1..], name);
          var j :| 0 <= j < |fields[1..]| && EqualsIgnoringCase(fields[1..][j].name, name) && v in fields[1..][j].values;
          assert fields[j + 1] == fields[1..][j];
        }
      }
      forall i | 0 <= i < |fields| && EqualsIgnoringCase(fields[i].name, name)
        ensures forall v :: v in fields[i].values ==> v in ValuesNamed(fields, name)
      {
        if i > 0 {
          assert fields[i] == fields[1..][i - 1];
        }
      }
    }
  }
}
