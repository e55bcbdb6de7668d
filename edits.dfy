/** The `Edits` endpoint: an instruction applied to an input text. */
module Edits {
  import opened Wrappers
  import opened Php
  import opened Exceptions
  import opened HttpClient
  import opened Url
  import opened AbstractEndpoint

  const Path := "edits"
  const Required := ["instruction", "model"]

  const DefaultNames := ["input", "instruction", "model"]

  const DefaultValues := [
    Str("Al ball fll of the wal."),
    Str("Fix the spelling mistakes"),
    Str("text-davinci-edit-001")]

  const Defaults := TableOf(DefaultNames, DefaultValues)

  class Edits {
    const url: Url
    const endpointUrl: EndpointUrlCell

    /** The inherited constructor: stores the URL handler and writes this
        class's endpoint URL into its static slot. */
    constructor(url: Url, slot: EndpointUrlCell)
      modifies slot
      ensures this.url == url && endpointUrl == slot
      ensures slot.value == url.EndpointUrl(Path)
    {
      this.url := url;
      endpointUrl := slot;
      slot.value := url.EndpointUrl(Path);
    }

    /** `create`: posts the parsed arguments as JSON to the stored URL. */
    method Create(args: Array) returns (o: Outcome)
      ensures o == JsonCreate(endpointUrl.value, Required, Defaults, args)
    {
      o := PostJson(endpointUrl.value, Required, Defaults, args);
    }
  }

  /** The default table is a PHP array whose keys are `input`,
      `instruction` and `model`, in that order, all non-null. */
  lemma DefaultsWellFormed()
    ensures WellFormed(Defaults) && Defaults != []
    ensures Keys(Defaults) == [Name("input"), Name("instruction"), Name("model")]
    ensures IsSet(Defaults, Name("input")) && IsSet(Defaults, Name("instruction")) && IsSet(Defaults, Name("model"))
  {
    var n := DefaultNames;
    assert |n[0]| == 5 && |n[1]| == 11 && |n[2]| == 5 && n[0][0] != n[2][0];
    TableShape(DefaultNames, DefaultValues);
    assert n[0] == "input" && n[1] == "instruction" && n[2] == "model";
  }

  /** An edit is rejected with 400 exactly when the caller passes null for
      `instruction` or `model`; a null `input` is sent as is. */
  lemma CreateSentIff(endpointUrl: string, args: Array)
    requires WellFormed(args)
    ensures var o := JsonCreate(endpointUrl, Required, Defaults, args);
            (o.Sent? <==> Lookup(args, Name("instruction")) != Some(Null) && Lookup(args, Name("model")) != Some(Null))
            && (o.Rejected? ==> o.error == NewBadRequest(MissingKeysPrefix + "instruction" + ", " + "model", 400))
    ensures var o := JsonCreate(endpointUrl, Required, Defaults, args);
            Lookup(args, Name("input")) == Some(Null) && Lookup(args, Name("instruction")) != Some(Null)
            && Lookup(args, Name("model")) != Some(Null)
            ==> o.Sent? && Lookup(ParseArgsOf(Defaults, args), Name("input")) == Some(Null)
  {
    DefaultsWellFormed();
    JsonCreateTwoRequired(endpointUrl, "instruction", "model", Defaults, args);
    ParsedArgs(Defaults, args);
  }

  /** `create([])` posts exactly the three defaults. */
  lemma CreateWithNoArguments(endpointUrl: string)
    ensures var o := JsonCreate(endpointUrl, Required, Defaults, []);
            o == Sent(ClientCall("POST", endpointUrl, JsonOptions(Defaults)))
            && Keys(Defaults) == [Name("input"), Name("instruction"), Name("model")]
  {
    DefaultsWellFormed();
  }
}
