/** `Abstract_Endpoint`: what every endpoint shares. The caller's arguments
    are laid over the endpoint's default table, the required keys are
    checked, image requests are flattened into multipart parts, and the
    result is handed to the client as one call. */
module AbstractEndpoint {
  import opened Wrappers
  import opened Php
  import opened Exceptions
  import opened HttpClient

  /** The static `Abstract_Endpoint::$endpoint_url`. No endpoint class
      redeclares it, so in PHP there is a single such property for all
      endpoints; the model makes that an object the endpoints may share. */
  class EndpointUrlCell {
    var value: string

    constructor()
      ensures value == ""
    {
      value := "";
    }
  }

  /** Where each endpoint class keeps its `static::$endpoint_url`. As
      written there is one property, declared by `Abstract_Endpoint` and
      inherited by every endpoint class, so all classes write the same slot.
      Redeclaring the property in each class gives each class its own. */
  class EndpointStatics {
    const chat: EndpointUrlCell
    const completions: EndpointUrlCell
    const edits: EndpointUrlCell
    const images: EndpointUrlCell
    const models: EndpointUrlCell

    /** The static layout as written: one slot shared by all classes. */
    constructor Inherited()
      ensures fresh(chat) && chat.value == ""
      ensures completions == chat && edits == chat && images == chat && models == chat
    {
      var slot := new EndpointUrlCell();
      chat := slot;
      completions := slot;
      edits := slot;
      images := slot;
      models := slot;
    }

    /** One slot per endpoint class. */
    constructor PerClass()
      ensures fresh(chat) && fresh(completions) && fresh(edits) && fresh(images) && fresh(models)
      ensures chat.value == "" && completions.value == "" && edits.value == "" && images.value == "" && models.value == ""
      ensures Distinct()
    {
      chat := new EndpointUrlCell();
      completions := new EndpointUrlCell();
      edits := new EndpointUrlCell();
      images := new EndpointUrlCell();
      models := new EndpointUrlCell();
    }

    predicate Distinct()
    {
      chat != completions && chat != edits && chat != images && chat != models
      && completions != edits && completions != images && completions != models
      && edits != images && edits != models && images != models
    }
  }

  /** What an endpoint method does: hand one call to the client, or throw
      before any call is made. */
  datatype Outcome = Sent(call: ClientCall) | Rejected(error: ApiException)

  const JsonOption := Name("json")
  const CurlOption := Name("curl")
  const MultipartOption := Name("multipart")
  const StreamKey := Name("stream")
  const ImageKey := Name("image")
  /** The value of the cURL constant `CURLOPT_WRITEFUNCTION`. */
  const CurlOptWriteFunction := 20011

  // ---------------------------------------------------------------------
  // parse_args

  /** The `foreach` of `parse_args` from the array `p` on: each caller entry
      whose key is set (non-null) in the defaults `d` is written into `p`. */
  function Overlay(d: Array, p: Array, args: Array): Array
    decreases |args|
  {
    if args == [] then p else Overlay(d, Assign(d, p, args[0]), args[1..])
  }

  /** One iteration of the `foreach` of `parse_args`. */
  function Assign(d: Array, p: Array, e: Entry): Array
  {
    if IsSet(d, e.key) then Set(p, e.key, e.value) else p
  }

  /** `parse_args`: the caller's arguments unchanged when there are no
      defaults, otherwise the defaults overlaid with the caller's values. */
  function ParseArgsOf(defaults: Array, args: Array): Array
  {
    if defaults == [] then args else Overlay(defaults, defaults, args)
  }

  method ParseArgs(defaults: Array, args: Array) returns (parsed: Array)
    ensures parsed == ParseArgsOf(defaults, args)
  {
    if defaults == [] {
      return args;
    }
    parsed := defaults;
    for i := 0 to |args|
      invariant Overlay(defaults, parsed, args[i..]) == Overlay(defaults, defaults, args)
    {
      assert args[i..][1..] == args[i + 1..];
      if IsSet(defaults, args[i].key) {
        parsed := Set(parsed, args[i].key, args[i].value);
      }
    }
    assert args[|args|..] == [];
  }

  /** After the overlay, a key set in the defaults holds the caller's value
      when the caller passed that key; every other key keeps the value it
      had. Keys and their order do not change. */
  lemma {:induction false} OverlayLookup(d: Array, p: Array, args: Array)
    requires WellFormed(args)
    requires forall k :: IsSet(d, k) ==> KeyExists(p, k)
    ensures forall k :: Lookup(Overlay(d, p, args), k)
                         == if IsSet(d, k) && KeyExists(args, k) then Lookup(args, k) else Lookup(p, k)
    ensures Keys(Overlay(d, p, args)) == Keys(p)
    ensures WellFormed(p) ==> WellFormed(Overlay(d, p, args))
    decreases |args|
  {
    if args != [] {
      var e := args[0];
      var p' := Assign(d, p, e);
      assert forall k :: KeyExists(p', k) <==> KeyExists(p, k) by {
        forall k ensures KeyExists(p', k) <==> KeyExists(p, k) {
          if IsSet(d, e.key) && k != e.key {
            assert Lookup(p', k) == Lookup(p, k);
          }
        }
      }
      OverlayLookup(d, p', args[1..]);
      forall k ensures Lookup(Overlay(d, p, args), k)
                       == if IsSet(d, k) && KeyExists(args, k) then Lookup(args, k) else Lookup(p, k)
      {
        assert Overlay(d, p, args) == Overlay(d, p', args[1..]);
        if k == e.key {
          assert !KeyExists(args[1..], k);
        } else if IsSet(d, e.key) {
          assert Lookup(p', k) == Lookup(p, k);
        }
      }
    }
  }

  /** What `parse_args` returns, for defaults and arguments that are PHP
      arrays: with no defaults, the arguments themselves; otherwise exactly
      the default keys in the default order, each holding the caller's
      value when the caller passed the key and its default is not null, and
      its default value otherwise. */
  lemma ParsedArgs(defaults: Array, args: Array)
    requires WellFormed(defaults) && WellFormed(args)
    ensures defaults == [] ==> ParseArgsOf(defaults, args) == args
    ensures defaults != [] ==> Keys(ParseArgsOf(defaults, args)) == Keys(defaults)
    ensures defaults != [] ==>
              forall k :: Lookup(ParseArgsOf(defaults, args), k)
                          == if IsSet(defaults, k) && KeyExists(args, k) then Lookup(args, k) else Lookup(defaults, k)
    ensures WellFormed(ParseArgsOf(defaults, args))
  {
    if defaults != [] {
      OverlayLookup(defaults, defaults, args);
    }
  }

  /** Caller keys the defaults do not have never survive parsing, and a
      caller value for a key whose default is null is ignored. */
  lemma UnknownKeysAreDropped(defaults: Array, args: Array, k: Key)
    requires WellFormed(defaults) && WellFormed(args) && defaults != []
    ensures !KeyExists(defaults, k) ==> !KeyExists(ParseArgsOf(defaults, args), k)
    ensures Lookup(defaults, k) == Some(Null) ==> Lookup(ParseArgsOf(defaults, args), k) == Some(Null)
  {
    ParsedArgs(defaults, args);
  }

  // ---------------------------------------------------------------------
  // check_required_keys

  /** Every required key exists in `args` with a non-null value. */
  predicate RequiredPresent(required: seq<string>, args: Array)
  {
    forall i :: 0 <= i < |required| ==> IsSet(args, Name(required[i]))
  }

  /** `check_required_keys`: true when nothing is required, false at the
      first required key that is missing or null. */
  method CheckRequiredKeys(required: seq<string>, args: Array) returns (ok: bool)
    ensures ok == RequiredPresent(required, args)
    ensures required == [] ==> ok
  {
    if required == [] {
      return true;
    }
    for i := 0 to |required|
      invariant forall j :: 0 <= j < i ==> IsSet(args, Name(required[j]))
    {
      if !KeyExists(args, Name(required[i])) || Lookup(args, Name(required[i])).value == Null {
        return false;
      }
    }
    return true;
  }

  /** The message of the `Bad_Request` thrown when the check fails. */
  function MissingKeysMessage(required: seq<string>): (m: string)
    ensures |MissingKeysPrefix| <= |m| && m[..|MissingKeysPrefix|] == MissingKeysPrefix
    ensures m[|MissingKeysPrefix|..] == Join(required, ", ")
  {
    MissingKeysPrefix + Join(required, ", ")
  }

  const MissingKeysPrefix := "Missing required keys, check your parameters include: "

  /** A required key whose default is not null passes the check after
      parsing unless the caller explicitly passed null for it. */
  lemma RequiredAfterParse(defaults: Array, required: seq<string>, args: Array)
    requires WellFormed(defaults) && WellFormed(args) && defaults != []
    requires forall i :: 0 <= i < |required| ==> IsSet(defaults, Name(required[i]))
    ensures RequiredPresent(required, ParseArgsOf(defaults, args))
            <==> forall i :: 0 <= i < |required| ==> Lookup(args, Name(required[i])) != Some(Null)
  {
    ParsedArgs(defaults, args);
    var r := ParseArgsOf(defaults, args);
    assert forall i :: 0 <= i < |required| ==>
      (IsSet(r, Name(required[i])) <==> Lookup(args, Name(required[i])) != Some(Null));
  }

  // ---------------------------------------------------------------------
  // format_args_for_image_multipart

  /** The value PHP gives a key used as a value: its string or integer. */
  function KeyValue(k: Key): Value
  {
    match k
    case Name(s) => Str(s)
    case Index(i) => Int(i)
  }

  /** The multipart part for one argument: its name and contents, and for
      the `image` argument a handle opened on its path and the path's
      basename as file name. */
  function PartOf(e: Entry): (part: Array)
    ensures Lookup(part, Name("name")) == Some(KeyValue(e.key))
    ensures e.key == ImageKey ==> Lookup(part, Name("contents")) == Some(Resource(PhpString(e.value)))
    ensures e.key == ImageKey ==> Lookup(part, Name("filename")) == Some(Str(Basename(PhpString(e.value))))
    ensures e.key != ImageKey ==> Lookup(part, Name("contents")) == Some(e.value)
    ensures e.key != ImageKey ==> !KeyExists(part, Name("filename"))
    ensures WellFormed(part)
  {
    if e.key == ImageKey then FilePart(KeyValue(e.key), PhpString(e.value))
    else ValuePart(KeyValue(e.key), e.value)
  }

  /** `['name' => $name, 'contents' => fopen($path, 'r'), 'filename' => basename($path)]`. */
  function FilePart(name: Value, path: string): (part: Array)
    ensures Lookup(part, Name("name")) == Some(name)
    ensures Lookup(part, Name("contents")) == Some(Resource(path))
    ensures Lookup(part, Name("filename")) == Some(Str(Basename(path)))
    ensures WellFormed(part)
  {
    var named := ValuePart(name, Resource(path));
    assert Name("filename") != Name("contents") by {
      assert "filename"[0] != "contents"[0];
    }
    Set(named, Name("filename"), Str(Basename(path)))
  }

  /** `['name' => $name, 'contents' => $value]`. */
  function ValuePart(name: Value, value: Value): (part: Array)
    ensures Lookup(part, Name("name")) == Some(name)
    ensures Lookup(part, Name("contents")) == Some(value)
    ensures !KeyExists(part, Name("filename"))
    ensures WellFormed(part)
  {
    assert |"name"| != |"contents"| && |"name"| != |"filename"|;
    assert "filename"[0] != "contents"[0];
    Set(Set([], Name("name"), name), Name("contents"), value)
  }

  /** `format_args_for_image_multipart`: one part per argument, in the
      arguments' order, as a list. */
  method FormatArgsForImageMultipart(args: Array) returns (formatted: Array)
    ensures formatted == MultipartOf(args)
  {
    var parts: seq<Value> := [];
    for i := 0 to |args|
      invariant |parts| == i
      invariant forall j :: 0 <= j < i ==> parts[j] == Arr(PartOf(args[j]))
    {
      parts := parts + [Arr(PartOf(args[i]))];
    }
    formatted := ListOf(parts);
    assert formatted == MultipartOf(args);
  }

  /** The multipart list the method builds, as a function of the arguments. */
  function MultipartOf(args: Array): (formatted: Array)
    ensures |formatted| == |args|
    ensures forall i :: 0 <= i < |args| ==> formatted[i] == Entry(Index(i), Arr(PartOf(args[i])))
  {
    ListOf(seq(|args|, i requires 0 <= i < |args| => Arr(PartOf(args[i]))))
  }

  /** PHP's `basename` on a `/`-separated path: trailing slashes are ignored
      and what follows the last remaining slash is returned. */
  function Basename(path: string): (b: string)
    ensures '/' !in b
    ensures '/' !in path ==> b == path
  {
    LastSegment(StripTrailingSlashes(path))
  }

  function StripTrailingSlashes(s: string): (r: string)
    ensures |r| <= |s| && r == s[..|r|]
    ensures r == [] || r[|r| - 1] != '/'
    ensures '/' !in s ==> r == s
  {
    if s != [] && s[|s| - 1] == '/' then StripTrailingSlashes(s[..|s| - 1]) else s
  }

  /** The longest suffix of `s` without a slash. */
  function LastSegment(s: string): (r: string)
    ensures '/' !in r
    ensures |r| <= |s| && r == s[|s| - |r|..]
    ensures |r| < |s| ==> s[|s| - |r| - 1] == '/'
    ensures '/' !in s ==> r == s
  {
    var k := SegmentStart(s);
    if '/' !in s then
      assert !(k > 0);
      s
    else s[k..]
  }

  /** Where the last segment of `s` starts: just after its last slash. */
  function SegmentStart(s: string): (k: nat)
    ensures k <= |s|
    ensures forall i :: k <= i < |s| ==> s[i] != '/'
    ensures k > 0 ==> s[k - 1] == '/'
  {
    if s == [] then 0
    else if s[|s| - 1] == '/' then |s|
    else
      var k := SegmentStart(s[..|s| - 1]);
      assert forall i :: k <= i < |s| - 1 ==> s[i] == s[..|s| - 1][i];
      k
  }

  // ---------------------------------------------------------------------
  // Request options

  /** `['json' => $args]`. */
  function JsonOptions(args: Array): Array
  {
    [Entry(JsonOption, Arr(args))]
  }

  /** `['json' => $args, 'curl' => [CURLOPT_WRITEFUNCTION => $stream]]`. */
  function StreamOptions(args: Array, stream: Value): Array
  {
    [Entry(JsonOption, Arr(args)), Entry(CurlOption, Arr([Entry(Index(CurlOptWriteFunction), stream)]))]
  }

  /** `['multipart' => $parts]`. */
  function MultipartOptions(parts: Array): Array
  {
    [Entry(MultipartOption, Arr(parts))]
  }

  /** `parse_args`, `check_required_keys`, then either a `Bad_Request` with
      code 400 listing the required keys, or a POST of the parsed arguments
      as JSON: the shape every JSON endpoint's `create` has. */
  function JsonCreate(url: string, required: seq<string>, defaults: Array, args: Array): (o: Outcome)
    ensures o.Rejected? <==> !RequiredPresent(required, ParseArgsOf(defaults, args))
    ensures o.Rejected? ==> o.error == NewBadRequest(MissingKeysMessage(required), 400)
    ensures o.Sent? ==> o.call == ClientCall("POST", url, JsonOptions(ParseArgsOf(defaults, args)))
  {
    var parsed := ParseArgsOf(defaults, args);
    if !RequiredPresent(required, parsed) then Rejected(NewBadRequest(MissingKeysMessage(required), 400))
    else Sent(ClientCall("POST", url, JsonOptions(parsed)))
  }

  /** `create_stream`: the `create` checks, then a `Bad_Request` without a
      code (so 0) when no stream callback is given, otherwise a POST whose
      JSON body has `stream` forced to true and whose cURL options carry the
      callback as the write function. */
  function JsonStreamCreate(url: string, required: seq<string>, defaults: Array, args: Array, stream: Value): (o: Outcome)
    ensures !RequiredPresent(required, ParseArgsOf(defaults, args)) ==>
              o == Rejected(NewBadRequest(MissingKeysMessage(required), 400))
    ensures RequiredPresent(required, ParseArgsOf(defaults, args)) && stream == Null ==>
              o == Rejected(NewBadRequest(MissingStreamMessage))
    ensures o.Sent? <==> RequiredPresent(required, ParseArgsOf(defaults, args)) && stream != Null
    ensures o.Sent? ==> o.call == ClientCall("POST", url,
              StreamOptions(Set(ParseArgsOf(defaults, args), StreamKey, Bool(true)), stream))
  {
    var parsed := ParseArgsOf(defaults, args);
    if !RequiredPresent(required, parsed) then Rejected(NewBadRequest(MissingKeysMessage(required), 400))
    else if stream == Null then Rejected(NewBadRequest(MissingStreamMessage))
    else Sent(ClientCall("POST", url, StreamOptions(Set(parsed, StreamKey, Bool(true)), stream)))
  }

  const MissingStreamMessage := "Missing a stream function. Provide a compatible function for server-sent events: https://developer.mozilla.org/en-US/docs/Web/API/Server-sent_events/Using_server-sent_events"

  /** The body of a JSON `create`, step by step: parse, check, post. */
  method PostJson(url: string, required: seq<string>, defaults: Array, args: Array) returns (o: Outcome)
    ensures o == JsonCreate(url, required, defaults, args)
  {
    var parsed := ParseArgs(defaults, args);
    var ok := CheckRequiredKeys(required, parsed);
    if !ok {
      return Rejected(NewBadRequest(MissingKeysMessage(required), 400));
    }
    return Sent(ClientCall("POST", url, JsonOptions(parsed)));
  }

  /** The body of `create_stream`, step by step: parse, check, check the
      callback, set `stream`, post. */
  method PostJsonStream(url: string, required: seq<string>, defaults: Array, args: Array, stream: Value)
    returns (o: Outcome)
    ensures o == JsonStreamCreate(url, required, defaults, args, stream)
  {
    var parsed := ParseArgs(defaults, args);
    var ok := CheckRequiredKeys(required, parsed);
    if !ok {
      return Rejected(NewBadRequest(MissingKeysMessage(required), 400));
    }
    if stream == Null {
      return Rejected(NewBadRequest(MissingStreamMessage));
    }
    parsed := Set(parsed, StreamKey, Bool(true));
    return Sent(ClientCall("POST", url, StreamOptions(parsed, stream)));
  }

  /** For tables whose required keys all have non-null defaults: a JSON
      `create` is sent exactly when the caller passed null for no required
      key, and what it sends has exactly the default keys, in their order. */
  lemma JsonCreateShape(url: string, required: seq<string>, defaults: Array, args: Array)
    requires WellFormed(defaults) && WellFormed(args) && defaults != []
    requires forall i :: 0 <= i < |required| ==> IsSet(defaults, Name(required[i]))
    ensures JsonCreate(url, required, defaults, args).Sent?
            <==> forall i :: 0 <= i < |required| ==> Lookup(args, Name(required[i])) != Some(Null)
    ensures Keys(ParseArgsOf(defaults, args)) == Keys(defaults)
  {
    RequiredAfterParse(defaults, required, args);
    ParsedArgs(defaults, args);
  }

  /** `JsonCreateShape` for one required key: the request is rejected
      exactly when the caller passes null for it. */
  lemma JsonCreateOneRequired(url: string, a: string, defaults: Array, args: Array)
    requires WellFormed(defaults) && WellFormed(args) && defaults != []
    requires IsSet(defaults, Name(a))
    ensures var o := JsonCreate(url, [a], defaults, args);
            (o.Sent? <==> Lookup(args, Name(a)) != Some(Null))
            && (o.Rejected? ==> o.error == NewBadRequest(MissingKeysPrefix + a, 400))
  {
    JsonCreateShape(url, [a], defaults, args);
  }

  /** `JsonCreateShape` for two required keys: the request is rejected
      exactly when the caller passes null for either, and the message lists
      both. */
  lemma JsonCreateTwoRequired(url: string, a: string, b: string, defaults: Array, args: Array)
    requires WellFormed(defaults) && WellFormed(args) && defaults != []
    requires IsSet(defaults, Name(a)) && IsSet(defaults, Name(b))
    ensures var o := JsonCreate(url, [a, b], defaults, args);
            (o.Sent? <==> Lookup(args, Name(a)) != Some(Null) && Lookup(args, Name(b)) != Some(Null))
            && (o.Rejected? ==> o.error == NewBadRequest(MissingKeysPrefix + a + ", " + b, 400))
  {
    JsonCreateShape(url, [a, b], defaults, args);
    RequiredTwo(a, b, ParseArgsOf(defaults, args));
    RequiredTwo(a, b, args);
    JoinTwo(a, b);
  }

  lemma RequiredTwo(a: string, b: string, args: Array)
    ensures RequiredPresent([a, b], args) <==> IsSet(args, Name(a)) && IsSet(args, Name(b))
    ensures (forall i :: 0 <= i < 2 ==> Lookup(args, Name([a, b][i])) != Some(Null))
            <==> Lookup(args, Name(a)) != Some(Null) && Lookup(args, Name(b)) != Some(Null)
  {
    assert [a, b][0] == a && [a, b][1] == b;
  }

  lemma JoinTwo(a: string, b: string)
    ensures MissingKeysMessage([a, b]) == MissingKeysPrefix + a + ", " + b
  {
    assert Join([a, b], ", ") == a + ", " + Join([b], ", ");
  }

  /** `create_stream` succeeds exactly when `create` would and a callback is
      given; a check that fails reports the required keys (code 400) before
      the missing callback (code 0); what is sent has `stream` true and the
      callback as cURL write function. */
  lemma JsonStreamShape(url: string, required: seq<string>, defaults: Array, args: Array, stream: Value)
    ensures var o := JsonStreamCreate(url, required, defaults, args, stream);
            var plain := JsonCreate(url, required, defaults, args);
            (o.Sent? <==> plain.Sent? && stream != Null)
            && (plain.Rejected? ==> o == plain)
            && (plain.Sent? && stream == Null ==> o.Rejected? && o.error.code == 0 && o.error.message == MissingStreamMessage)
            && (o.Sent? ==> exists body :: o.call.args == StreamOptions(body, stream)
                                         && Lookup(body, StreamKey) == Some(Bool(true))
                                         && o.call.url == url && o.call.verb == "POST")
  {
    var o := JsonStreamCreate(url, required, defaults, args, stream);
    if o.Sent? {
      var body := Set(ParseArgsOf(defaults, args), StreamKey, Bool(true));
      assert o.call.args == StreamOptions(body, stream);
    }
  }
}
