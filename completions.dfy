/** The `Completions` endpoint: text completions, plain or streamed. */
module Completions {
  import opened Wrappers
  import opened Php
  import opened Exceptions
  import opened HttpClient
  import opened Url
  import opened AbstractEndpoint

  const Path := "completions"
  const Required := ["model"]

  const DefaultNames := ["prompt", "model", "max_tokens", "temperature", "frequency_penalty", "presence_penalty"]

  const DefaultValues := [
    Str("Three fish in a tree, how can that be?"),
    Str("text-davinci-003"),
    Int(25),
    Float("0.8"),
    Int(0),
    Float("0.2")]

  const Defaults := TableOf(DefaultNames, DefaultValues)

  class Completions {
    const url: Url
    const endpointUrl: EndpointUrlCell

    /** The inherited constructor: stores the URL handler and writes this
        class's endpoint URL into its static slot. */
    constructor(url: Url, slot: EndpointUrlCell)
      modifies slot
      ensures this.url == url && endpointUrl == slot
      ensures slot.value == url.EndpointUrl(Path)
    {
      this.url := url;
      endpointUrl := slot;
      slot.value := url.EndpointUrl(Path);
    }

    /** `create`: posts the parsed arguments as JSON to the stored URL. */
    method Create(args: Array) returns (o: Outcome)
      ensures o == JsonCreate(endpointUrl.value, Required, Defaults, args)
    {
      o := PostJson(endpointUrl.value, Required, Defaults, args);
    }

    /** `create_stream`: as `create`, with a stream callback and `stream`
        forced to true. */
    method CreateStream(args: Array, stream: Value := Null) returns (o: Outcome)
      ensures o == JsonStreamCreate(endpointUrl.value, Required, Defaults, args, stream)
    {
      o := PostJsonStream(endpointUrl.value, Required, Defaults, args, stream);
    }
  }

  /** The default table is a PHP array; `prompt`, `model` and `max_tokens`
      default to the prompt text, `text-davinci-003` and 25. */
  lemma DefaultsWellFormed()
    ensures WellFormed(Defaults) && Defaults != []
    ensures Lookup(Defaults, Name("prompt")) == Some(Str("Three fish in a tree, how can that be?"))
    ensures Lookup(Defaults, Name("model")) == Some(Str("text-davinci-003"))
    ensures Lookup(Defaults, Name("max_tokens")) == Some(Int(25))
  {
    var n := DefaultNames;
    assert |n[0]| == 6 && |n[1]| == 5 && |n[2]| == 10 && |n[3]| == 11 && |n[4]| == 17 && |n[5]| == 16;
    TableShape(DefaultNames, DefaultValues);
    assert n[0] == "prompt" && n[1] == "model" && n[2] == "max_tokens";
  }

  /** Only `model` is required: a completion is rejected with 400 exactly
      when the caller passes null for it; a null `prompt` is sent as is. */
  lemma CreateSentIff(endpointUrl: string, args: Array)
    requires WellFormed(args)
    ensures var o := JsonCreate(endpointUrl, Required, Defaults, args);
            (o.Sent? <==> Lookup(args, Name("model")) != Some(Null))
            && (o.Rejected? ==> o.error == NewBadRequest(MissingKeysPrefix + "model", 400))
    ensures var o := JsonCreate(endpointUrl, Required, Defaults, args);
            Lookup(args, Name("prompt")) == Some(Null) && Lookup(args, Name("model")) != Some(Null)
            ==> o.Sent? && Lookup(ParseArgsOf(Defaults, args), Name("prompt")) == Some(Null)
  {
    DefaultsWellFormed();
    JsonCreateOneRequired(endpointUrl, "model", Defaults, args);
    ParsedArgs(Defaults, args);
  }

  /** Keys the caller leaves out take their defaults. */
  lemma OmittedKeysTakeDefaults(args: Array)
    requires WellFormed(args)
    ensures !KeyExists(args, Name("model")) ==> Lookup(ParseArgsOf(Defaults, args), Name("model")) == Some(Str("text-davinci-003"))
    ensures !KeyExists(args, Name("max_tokens")) ==> Lookup(ParseArgsOf(Defaults, args), Name("max_tokens")) == Some(Int(25))
  {
    DefaultsWellFormed();
    ParsedArgs(Defaults, args);
  }

  /** A stream is sent exactly when `model` is not passed as null and a
      callback is given, with `stream` true in the body. */
  lemma CreateStreamSentIff(endpointUrl: string, args: Array, stream: Value)
    requires WellFormed(args)
    ensures var o := JsonStreamCreate(endpointUrl, Required, Defaults, args, stream);
            var keysPresent := Lookup(args, Name("model")) != Some(Null);
            (o.Sent? <==> keysPresent && stream != Null)
            && (!keysPresent ==> o.Rejected? && o.error.code == 400)
            && (keysPresent && stream == Null ==> o.Rejected? && o.error.code == 0 && o.error.message == MissingStreamMessage)
            && (o.Sent? ==> exists body :: o.call.args == StreamOptions(body, stream)
                                         && Lookup(body, StreamKey) == Some(Bool(true)))
  {
    DefaultsWellFormed();
    JsonCreateOneRequired(endpointUrl, "model", Defaults, args);
    JsonStreamShape(endpointUrl, Required, Defaults, args, stream);
  }
}
