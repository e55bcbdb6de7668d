/** The `Chat` endpoint: chat completions, plain or streamed. */
module Chat {
  import opened Wrappers
  import opened Php
  import opened Exceptions
  import opened HttpClient
  import opened Url
  import opened AbstractEndpoint

  const Path := "chat/completions"
  const Required := ["messages", "model"]

  const DefaultMessage := "What children's book is this from? \"Walk walk we like walk.\""

  const DefaultNames := ["messages", "model", "max_tokens", "temperature", "frequency_penalty", "presence_penalty"]

  const DefaultValues := [
    Arr(ListOf([Arr(TableOf(["role", "content"], [Str("user"), Str(DefaultMessage)]))])),
    Str("gpt-3.5-turbo"),
    Int(25),
    Float("0.8"),
    Int(0),
    Float("0.2")]

  const Defaults := TableOf(DefaultNames, DefaultValues)

  class Chat {
    const url: Url
    const endpointUrl: EndpointUrlCell

    /** The inherited constructor: stores the URL handler and writes this
        class's endpoint URL into its static slot. */
    constructor(url: Url, slot: EndpointUrlCell)
      modifies slot
      ensures this.url == url && endpointUrl == slot
      ensures slot.value == url.EndpointUrl(Path)
    {
      this.url := url;
      endpointUrl := slot;
      slot.value := url.EndpointUrl(Path);
    }

    /** `create`: posts the parsed arguments as JSON to the stored URL. */
    method Create(args: Array) returns (o: Outcome)
      ensures o == JsonCreate(endpointUrl.value, Required, Defaults, args)
    {
      o := PostJson(endpointUrl.value, Required, Defaults, args);
    }

    /** `create_stream`: as `create`, with a stream callback and `stream`
        forced to true. */
    method CreateStream(args: Array, stream: Value := Null) returns (o: Outcome)
      ensures o == JsonStreamCreate(endpointUrl.value, Required, Defaults, args, stream)
    {
      o := PostJsonStream(endpointUrl.value, Required, Defaults, args, stream);
    }
  }

  /** The default table is a PHP array in which both required keys have
      non-null defaults. */
  lemma DefaultsWellFormed()
    ensures WellFormed(Defaults) && Defaults != []
    ensures IsSet(Defaults, Name("messages")) && IsSet(Defaults, Name("model"))
  {
    var n := DefaultNames;
    assert |n[0]| == 8 && |n[1]| == 5 && |n[2]| == 10 && |n[3]| == 11 && |n[4]| == 17 && |n[5]| == 16;
    TableShape(DefaultNames, DefaultValues);
    assert n[0] == "messages" && n[1] == "model";
  }

  /** The default table's keys are the six default names, in order. */
  lemma DefaultKeys()
    ensures Keys(Defaults) == [Name("messages"), Name("model"), Name("max_tokens"), Name("temperature"),
                               Name("frequency_penalty"), Name("presence_penalty")]
  {
    KeysAt(Defaults);
  }

  /** A chat is sent unless the caller passes null for `messages` or
      `model`; otherwise the `Bad_Request` lists both keys. */
  lemma CreateSentIff(endpointUrl: string, args: Array)
    requires WellFormed(args)
    ensures var o := JsonCreate(endpointUrl, Required, Defaults, args);
            o.Sent? <==> Lookup(args, Name("messages")) != Some(Null) && Lookup(args, Name("model")) != Some(Null)
    ensures var o := JsonCreate(endpointUrl, Required, Defaults, args);
            o.Rejected? ==> o.error == NewBadRequest(MissingKeysPrefix + "messages" + ", " + "model", 400)
  {
    DefaultsWellFormed();
    JsonCreateTwoRequired(endpointUrl, "messages", "model", Defaults, args);
  }

  /** Only the six default keys reach the body: a caller's `n` or `stream`
      is dropped by `create`. */
  lemma CreateSendsOnlyDefaultKeys(endpointUrl: string, args: Array)
    requires WellFormed(args)
    ensures var o := JsonCreate(endpointUrl, Required, Defaults, args);
            o.Sent? ==> o.call.args == JsonOptions(ParseArgsOf(Defaults, args))
                        && Keys(ParseArgsOf(Defaults, args)) == Keys(Defaults)
                        && !KeyExists(ParseArgsOf(Defaults, args), Name("n"))
                        && !KeyExists(ParseArgsOf(Defaults, args), StreamKey)
  {
    DefaultsWellFormed();
    DefaultKeys();
    ParsedArgs(Defaults, args);
    KeysAgreeWithLookup(ParseArgsOf(Defaults, args), Name("n"));
    KeysAgreeWithLookup(ParseArgsOf(Defaults, args), StreamKey);
  }

  /** A stream is sent exactly when `messages` and `model` are not passed as
      null and a callback is given; a null key is reported first (400, both keys listed),
      then a missing callback (0); what is sent has `stream` true whatever
      the caller passed. */
  lemma CreateStreamSentIff(endpointUrl: string, args: Array, stream: Value)
    requires WellFormed(args)
    ensures var o := JsonStreamCreate(endpointUrl, Required, Defaults, args, stream);
            var keysPresent := Lookup(args, Name("messages")) != Some(Null) && Lookup(args, Name("model")) != Some(Null);
            (o.Sent? <==> keysPresent && stream != Null)
            && (!keysPresent ==> o.Rejected? && o.error.code == 400)
            && (keysPresent && stream == Null ==> o.Rejected? && o.error.code == 0 && o.error.message == MissingStreamMessage)
            && (o.Sent? ==> exists body :: o.call.args == StreamOptions(body, stream)
                                         && Lookup(body, StreamKey) == Some(Bool(true)))
  {
    DefaultsWellFormed();
    JsonCreateTwoRequired(endpointUrl, "messages", "model", Defaults, args);
    JsonStreamShape(endpointUrl, Required, Defaults, args, stream);
  }

  /** `create([])` posts the default table itself. */
  lemma CreateWithNoArguments(endpointUrl: string)
    ensures JsonCreate(endpointUrl, Required, Defaults, []) == Sent(ClientCall("POST", endpointUrl, JsonOptions(Defaults)))
  {
    DefaultsWellFormed();
  }
}
