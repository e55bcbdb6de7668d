/** The `Images` endpoint: generations, edits and variations. Unlike the
    other endpoints, `Images` keeps its required and default tables in
    instance fields, and `edits`/`variations` overwrite them. */
module Images {
  import opened Wrappers
  import opened Php
  import opened Exceptions
  import opened HttpClient
  import opened Url
  import opened AbstractEndpoint

  const Path := "images"
  const GenerationsPath := "generations"
  const EditsPath := "edits"

  const Required := ["prompt"]
  const Defaults := TableOf(["prompt", "n", "size", "response_format"],
                            [Str("A cute baby sea monster"), Int(1), Str("512x512"), Str("url")])

  const RequiredEdits := ["image", "prompt"]
  const EditsDefaults := TableOf(["image", "prompt", "n", "size", "response_format"],
                                 [Str(""), Str("A cute baby sea monster in a pool"), Int(1), Str("512x512"), Str("url")])

  const RequiredVariations := ["image"]
  const VariationsDefaults := TableOf(["image", "n", "size", "response_format"],
                                      [Str(""), Int(1), Str("512x512"), Str("url")])

  const MissingFilePrefix := "Image file does not exist, please check the path: "

  class Images {
    const url: Url
    const endpointUrl: EndpointUrlCell
    var requiredArgs: seq<string>
    var defaultArgs: Array

    /** The inherited constructor writes the `images` URL into the static
        slot; the tables start as the generation tables. */
    constructor(url: Url, slot: EndpointUrlCell)
      modifies slot
      ensures this.url == url && endpointUrl == slot
      ensures slot.value == url.EndpointUrl(Path)
      ensures requiredArgs == Required && defaultArgs == Defaults
    {
      this.url := url;
      endpointUrl := slot;
      requiredArgs := Required;
      defaultArgs := Defaults;
      slot.value := url.EndpointUrl(Path);
    }

    /** `create`: a JSON POST to `images/generations` checked against the
        tables the object holds now. */
    method Create(args: Array) returns (o: Outcome)
      ensures o == JsonCreate(url.EndpointUrl(Path, GenerationsPath), requiredArgs, defaultArgs, args)
    {
      var endpoint := url.EndpointUrl(Path, GenerationsPath);
      o := PostJson(endpoint, requiredArgs, defaultArgs, args);
    }

    /** `edits`: installs the edit tables for good, then a multipart POST to
        `images/edits`. */
    method Edits(args: Array, existingFiles: set<string>) returns (o: Outcome)
      modifies this
      ensures requiredArgs == RequiredEdits && defaultArgs == EditsDefaults
      ensures o == MultipartCreate(url.EndpointUrl(Path, EditsPath), RequiredEdits, EditsDefaults, args, existingFiles)
    {
      requiredArgs := RequiredEdits;
      defaultArgs := EditsDefaults;
      var endpoint := url.EndpointUrl(Path, EditsPath);
      o := PostMultipart(endpoint, requiredArgs, defaultArgs, args, existingFiles);
    }

    /** `variations`: installs the variation tables for good, then a
        multipart POST to the same `images/edits` URL. */
    method Variations(args: Array, existingFiles: set<string>) returns (o: Outcome)
      modifies this
      ensures requiredArgs == RequiredVariations && defaultArgs == VariationsDefaults
      ensures o == MultipartCreate(url.EndpointUrl(Path, EditsPath), RequiredVariations, VariationsDefaults, args, existingFiles)
    {
      requiredArgs := RequiredVariations;
      defaultArgs := VariationsDefaults;
      var endpoint := url.EndpointUrl(Path, EditsPath);
      o := PostMultipart(endpoint, requiredArgs, defaultArgs, args, existingFiles);
    }
  }

  /** PHP `file_exists` over a given set of existing paths; the empty path
      never exists. */
  predicate FileExists(existingFiles: set<string>, path: string)
  {
    path != "" && path in existingFiles
  }

  /** `$args['image']` as a string; a missing key reads as null, so "". */
  function ImagePath(args: Array): string
  {
    match Lookup(args, ImageKey)
    case Some(v) => PhpString(v)
    case None => ""
  }

  /** `edits`/`variations` after the table swap: the required-key check,
      then the file check, then a POST of the multipart parts. */
  function MultipartCreate(url: string, required: seq<string>, defaults: Array, args: Array, existingFiles: set<string>): (o: Outcome)
    ensures !RequiredPresent(required, ParseArgsOf(defaults, args)) ==>
              o == Rejected(NewBadRequest(MissingKeysMessage(required), 400))
    ensures RequiredPresent(required, ParseArgsOf(defaults, args)) ==>
              (o.Sent? <==> FileExists(existingFiles, ImagePath(ParseArgsOf(defaults, args))))
    ensures RequiredPresent(required, ParseArgsOf(defaults, args)) && !FileExists(existingFiles, ImagePath(ParseArgsOf(defaults, args))) ==>
              o == Rejected(NewBadRequest(MissingFilePrefix + ImagePath(ParseArgsOf(defaults, args)), 400))
    ensures o.Sent? ==> o.call == ClientCall("POST", url, MultipartOptions(MultipartOf(ParseArgsOf(defaults, args))))
  {
    var parsed := ParseArgsOf(defaults, args);
    if !RequiredPresent(required, parsed) then Rejected(NewBadRequest(MissingKeysMessage(required), 400))
    else if !FileExists(existingFiles, ImagePath(parsed)) then Rejected(NewBadRequest(MissingFilePrefix + ImagePath(parsed), 400))
    else Sent(ClientCall("POST", url, MultipartOptions(MultipartOf(parsed))))
  }

  /** The shared body of `edits` and `variations`, step by step. */
  method PostMultipart(url: string, required: seq<string>, defaults: Array, args: Array, existingFiles: set<string>)
    returns (o: Outcome)
    ensures o == MultipartCreate(url, required, defaults, args, existingFiles)
  {
    var parsed := ParseArgs(defaults, args);
    var ok := CheckRequiredKeys(required, parsed);
    if !ok {
      return Rejected(NewBadRequest(MissingKeysMessage(required), 400));
    }
    var path := ImagePath(parsed);
    if !FileExists(existingFiles, path) {
      return Rejected(NewBadRequest(MissingFilePrefix + path, 400));
    }
    var parts := FormatArgsForImageMultipart(parsed);
    return Sent(ClientCall("POST", url, MultipartOptions(parts)));
  }

  // ---------------------------------------------------------------------
  // The three tables

  lemma DefaultsWellFormed()
    ensures WellFormed(Defaults) && Defaults != [] && IsSet(Defaults, Name("prompt"))
    ensures !KeyExists(Defaults, ImageKey)
  {
    var n := ["prompt", "n", "size", "response_format"];
    assert |n[0]| == 6 && |n[1]| == 1 && |n[2]| == 4 && |n[3]| == 15;
    TableShape(n, [Str("A cute baby sea monster"), Int(1), Str("512x512"), Str("url")]);
    assert n[0] == "prompt";
  }

  /** The edit table: `image` comes first and defaults to "", `prompt` is
      not null, and there are five keys. */
  lemma EditsDefaultsWellFormed()
    ensures WellFormed(EditsDefaults) && |EditsDefaults| == 5
    ensures Lookup(EditsDefaults, ImageKey) == Some(Str("")) && IsSet(EditsDefaults, Name("prompt"))
    ensures Keys(EditsDefaults)[0] == ImageKey
  {
    var n := ["image", "prompt", "n", "size", "response_format"];
    assert |n[0]| == 5 && |n[1]| == 6 && |n[2]| == 1 && |n[3]| == 4 && |n[4]| == 15;
    TableShape(n, [Str(""), Str("A cute baby sea monster in a pool"), Int(1), Str("512x512"), Str("url")]);
    assert n[0] == "image" && n[1] == "prompt";
  }

  /** The variation table: `image` comes first and defaults to "", and
      there are four keys. */
  lemma VariationsDefaultsWellFormed()
    ensures WellFormed(VariationsDefaults) && |VariationsDefaults| == 4
    ensures Lookup(VariationsDefaults, ImageKey) == Some(Str(""))
    ensures Keys(VariationsDefaults)[0] == ImageKey
  {
    var n := ["image", "n", "size", "response_format"];
    assert |n[0]| == 5 && |n[1]| == 1 && |n[2]| == 4 && |n[3]| == 15;
    TableShape(n, [Str(""), Int(1), Str("512x512"), Str("url")]);
    assert n[0] == "image";
  }

  // ---------------------------------------------------------------------
  // create

  /** With the generation tables, `create` is rejected with 400 exactly
      when the caller passes a null `prompt`, and the message names the
      one required key. */
  lemma CreateSentIff(endpointUrl: string, args: Array)
    requires WellFormed(args)
    ensures var o := JsonCreate(endpointUrl, Required, Defaults, args);
            (o.Sent? <==> Lookup(args, Name("prompt")) != Some(Null))
            && (o.Rejected? ==> o.error == NewBadRequest(MissingKeysPrefix + "prompt", 400))
  {
    DefaultsWellFormed();
    JsonCreateOneRequired(endpointUrl, "prompt", Defaults, args);
  }

  /** `create([])` passes: the default prompt is used. */
  lemma CreateWithNoArguments(endpointUrl: string)
    ensures JsonCreate(endpointUrl, Required, Defaults, []) == Sent(ClientCall("POST", endpointUrl, JsonOptions(Defaults)))
  {
    DefaultsWellFormed();
  }

  /** On an object `edits` has already run on, `create([])` sends the edit
      defaults, `image` included, to the generations URL. */
  lemma CreateAfterEdits(endpointUrl: string)
    ensures JsonCreate(endpointUrl, RequiredEdits, EditsDefaults, [])
            == Sent(ClientCall("POST", endpointUrl, JsonOptions(EditsDefaults)))
    ensures KeyExists(EditsDefaults, ImageKey) && !KeyExists(Defaults, ImageKey)
  {
    EditsDefaultsWellFormed();
    DefaultsWellFormed();
    RequiredTwo("image", "prompt", EditsDefaults);
    JsonCreateNoArguments(endpointUrl, RequiredEdits, EditsDefaults);
  }

  /** With no arguments, the defaults themselves are checked and sent. */
  lemma JsonCreateNoArguments(url: string, required: seq<string>, defaults: Array)
    requires RequiredPresent(required, defaults)
    ensures JsonCreate(url, required, defaults, []) == Sent(ClientCall("POST", url, JsonOptions(defaults)))
  {
    assert ParseArgsOf(defaults, []) == defaults;
  }

  // ---------------------------------------------------------------------
  // edits and variations

  /** For tables whose required keys have non-null defaults and whose
      first key is `image`: a multipart call is rejected for its keys
      exactly when the caller passes null for a required key; otherwise it
      is sent exactly when the image path exists; what it sends has one
      part per default key, the first opening the checked path. */
  lemma MultipartShape(url: string, required: seq<string>, defaults: Array, args: Array, existingFiles: set<string>)
    requires WellFormed(defaults) && WellFormed(args) && defaults != []
    requires forall i :: 0 <= i < |required| ==> IsSet(defaults, Name(required[i]))
    requires Keys(defaults)[0] == ImageKey
    ensures var o := MultipartCreate(url, required, defaults, args, existingFiles);
            var parsed := ParseArgsOf(defaults, args);
            var keysPresent := forall i :: 0 <= i < |required| ==> Lookup(args, Name(required[i])) != Some(Null);
            (!keysPresent ==> o == Rejected(NewBadRequest(MissingKeysMessage(required), 400)))
            && (keysPresent ==> (o.Sent? <==> FileExists(existingFiles, ImagePath(parsed))))
            && (o.Sent? ==> ImagePartOpens(o.call, url, parsed, |defaults|))
  {
    var parsed := ParseArgsOf(defaults, args);
    RequiredAfterParse(defaults, required, args);
    ParsedArgs(defaults, args);
    KeysAt(parsed);
    FirstPartIsImage(parsed, |defaults|);
  }

  /** `MultipartShape` for two required keys. */
  lemma MultipartTwoRequired(url: string, a: string, b: string, defaults: Array, args: Array, existingFiles: set<string>)
    requires WellFormed(defaults) && WellFormed(args) && defaults != []
    requires IsSet(defaults, Name(a)) && IsSet(defaults, Name(b))
    requires Keys(defaults)[0] == ImageKey
    ensures var o := MultipartCreate(url, [a, b], defaults, args, existingFiles);
            var parsed := ParseArgsOf(defaults, args);
            var keysPresent := Lookup(args, Name(a)) != Some(Null) && Lookup(args, Name(b)) != Some(Null);
            (!keysPresent ==> o == Rejected(NewBadRequest(MissingKeysPrefix + a + ", " + b, 400)))
            && (keysPresent ==> (o.Sent? <==> FileExists(existingFiles, ImagePath(parsed))))
            && (o.Sent? ==> ImagePartOpens(o.call, url, parsed, |defaults|))
  {
    MultipartShape(url, [a, b], defaults, args, existingFiles);
    RequiredTwo(a, b, args);
    JoinTwo(a, b);
  }

  /** When the caller gives no `image` and the default path is "", the
      file check fails once the required keys pass. */
  lemma MissingImageShape(url: string, required: seq<string>, defaults: Array, args: Array, existingFiles: set<string>)
    requires WellFormed(defaults) && WellFormed(args) && defaults != []
    requires Lookup(defaults, ImageKey) == Some(Str("")) && !KeyExists(args, ImageKey)
    requires RequiredPresent(required, ParseArgsOf(defaults, args))
    ensures MultipartCreate(url, required, defaults, args, existingFiles) == Rejected(NewBadRequest(MissingFilePrefix, 400))
  {
    ParsedArgs(defaults, args);
    assert ImagePath(ParseArgsOf(defaults, args)) == "";
    assert MissingFilePrefix + "" == MissingFilePrefix;
  }

  /** `edits`: a null `image` or `prompt` is rejected first (400, both keys
      listed); then a path that does not exist (400, path in the message);
      otherwise the multipart has one part per edit key, the first of which
      opens the checked image path. */
  lemma EditsSentIff(endpointUrl: string, args: Array, existingFiles: set<string>)
    requires WellFormed(args)
    ensures var o := MultipartCreate(endpointUrl, RequiredEdits, EditsDefaults, args, existingFiles);
            var parsed := ParseArgsOf(EditsDefaults, args);
            var keysPresent := Lookup(args, ImageKey) != Some(Null) && Lookup(args, Name("prompt")) != Some(Null);
            (!keysPresent ==> o == Rejected(NewBadRequest(MissingKeysPrefix + "image" + ", " + "prompt", 400)))
            && (keysPresent ==> (o.Sent? <==> FileExists(existingFiles, ImagePath(parsed))))
            && (o.Sent? ==> ImagePartOpens(o.call, endpointUrl, parsed, 5))
  {
    EditsDefaultsWellFormed();
    MultipartTwoRequired(endpointUrl, "image", "prompt", EditsDefaults, args, existingFiles);
  }

  /** Without an `image` argument, `edits` always fails the file check,
      since the default path "" never exists. */
  lemma EditsWithoutImage(endpointUrl: string, args: Array, existingFiles: set<string>)
    requires WellFormed(args) && !KeyExists(args, ImageKey) && Lookup(args, Name("prompt")) != Some(Null)
    ensures MultipartCreate(endpointUrl, RequiredEdits, EditsDefaults, args, existingFiles)
            == Rejected(NewBadRequest(MissingFilePrefix, 400))
  {
    EditsDefaultsWellFormed();
    MissingImageWithKey(endpointUrl, "prompt", EditsDefaults, args, existingFiles);
  }

  /** `MissingImageShape` for the required keys `image` and `b`. */
  lemma MissingImageWithKey(url: string, b: string, defaults: Array, args: Array, existingFiles: set<string>)
    requires WellFormed(defaults) && WellFormed(args) && defaults != []
    requires Lookup(defaults, ImageKey) == Some(Str("")) && IsSet(defaults, Name(b))
    requires !KeyExists(args, ImageKey) && Lookup(args, Name(b)) != Some(Null)
    ensures MultipartCreate(url, ["image", b], defaults, args, existingFiles) == Rejected(NewBadRequest(MissingFilePrefix, 400))
  {
    RequiredTwo("image", b, ParseArgsOf(defaults, args));
    ParsedArgs(defaults, args);
    MissingImageShape(url, ["image", b], defaults, args, existingFiles);
  }

  /** `variations`: a null `image` is rejected first (400); then a path
      that does not exist; otherwise one part per variation key, the first
      opening the checked path. */
  lemma VariationsSentIff(endpointUrl: string, args: Array, existingFiles: set<string>)
    requires WellFormed(args)
    ensures var o := MultipartCreate(endpointUrl, RequiredVariations, VariationsDefaults, args, existingFiles);
            var parsed := ParseArgsOf(VariationsDefaults, args);
            (Lookup(args, ImageKey) == Some(Null) ==> o == Rejected(NewBadRequest(MissingKeysPrefix + "image", 400)))
            && (Lookup(args, ImageKey) != Some(Null) ==> (o.Sent? <==> FileExists(existingFiles, ImagePath(parsed))))
            && (o.Sent? ==> ImagePartOpens(o.call, endpointUrl, parsed, 4))
  {
    VariationsDefaultsWellFormed();
    MultipartShape(endpointUrl, RequiredVariations, VariationsDefaults, args, existingFiles);
    assert RequiredVariations[0] == "image";
    assert Join(RequiredVariations, ", ") == "image";
  }

  /** What a multipart image call sends: a POST to `url` whose `n` parts
      follow the parsed arguments, the first being the `image` part, which
      opens the image path and carries its basename. */
  predicate ImagePartOpens(call: ClientCall, url: string, parsed: Array, n: nat)
  {
    && call == ClientCall("POST", url, MultipartOptions(MultipartOf(parsed)))
    && |MultipartOf(parsed)| == n
    && KeyExists(parsed, ImageKey)
    && 0 < n
    && var image := PartOf(Entry(ImageKey, Lookup(parsed, ImageKey).value));
       && MultipartOf(parsed)[0] == Entry(Index(0), Arr(image))
       && Lookup(image, Name("contents")) == Some(Resource(ImagePath(parsed)))
       && Lookup(image, Name("filename")) == Some(Str(Basename(ImagePath(parsed))))
  }

  lemma FirstPartIsImage(parsed: Array, n: nat)
    requires |parsed| == n && 0 < n && parsed[0].key == ImageKey
    ensures forall url :: ImagePartOpens(ClientCall("POST", url, MultipartOptions(MultipartOf(parsed))), url, parsed, n)
  {
  }
}
