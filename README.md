# php-openai-provider in Dafny

A Dafny model of the request-building core of a PHP binding for the OpenAI
REST API, with proofs about it.

Each endpoint method goes through the same steps. It lays the caller's
arguments over the endpoint's default table (`parse_args`). It checks that the
required keys are present and not null (`check_required_keys`). For images, it
flattens the arguments into multipart parts. Then it either throws a
`Bad_Request` with code 400 or hands one call to the HTTP client. A call is a
verb, a URL and request options.

The client and the other pieces do the following:

- The client adds the bearer and organization headers and passes the request
  to the transport. It maps the transport's failures to `Api_Exception` or
  `Bad_Request`, and redacts credentials from their messages.
- `Url` builds every URL from a static base URL and a static API version.
- `Api_Response` wraps the transport's response. It exposes the decoded body
  through property and array access, and forwards the PSR-7 accessors.
- `Request_Api` is a separate WordPress-transport base class. The model keeps
  its verb stamping, its expected-status-code decision and its response-body
  check.

Layout: one module per source file, plus four support modules.

| module | file | what it models |
|---|---|---|
| `Wrappers` | `wrappers.dfy` | `Option`, `Result` |
| `Php` | `php.dfy` | ordered PHP arrays with unique keys; `isset` versus `array_key_exists`; `$a[$k] = $v` and `$a[] = $v`; `empty`; string truthiness; string conversion; `implode` |
| `Http` | `http_message.dfy` | the PSR-7 response, the decoded JSON body and the transport's exception, as data |
| `Url` | `url.dfy` | `Url.php` |
| `Exceptions` | `exceptions.dfy` | `Api_Exception.php`, `Bad_Request.php` |
| `HttpClient` | `client.dfy` | `Client.php` |
| `AbstractEndpoint` | `abstract_endpoint.dfy` | `Abstract_Endpoint.php` |
| `Chat`, `Completions`, `Edits`, `Images`, `Models` | one file each | the endpoint classes |
| `EndpointUrlSharing` | `endpoint_url_sharing.dfy` | two endpoint objects sharing the static `$endpoint_url` |
| `RequestApi` | `request_api.dfy` | `Request_Api.php` |
| `ApiResponse` | `api_response.dfy` | `Api_Response.php` |

How state and effects are modelled:

- State the PHP code updates in place is a Dafny class. This covers
  `Url`'s static base URL and version (one `UrlConfig` object shared by every
  `Url`), the endpoints' static `$endpoint_url` slot (`EndpointUrlCell`), the
  tables `Images` rewrites, and `Api_Response::$result`.
- The loops of `parse_args`, `check_required_keys` and
  `format_args_for_image_multipart` are methods with loop invariants. Each is
  proved equal to a function. The properties are proved about those
  functions.
- The injected HTTP client is a recorder. An endpoint method returns
  `Sent(ClientCall(verb, url, options))` or `Rejected(exception)`;
  `Client.Perform` hands a recorded call to the client's `request` as written.
- The transport's outcome is an input. For the client it is a delivered
  response, a server error, a client error or another exception. For
  `Request_Api` it is a `WP_Error` or a response.
- Three outside calls become plain inputs:
  - `json_decode` is a function parameter of the `Api_Response` constructor.
  - `file_exists` is a set of existing paths.
  - `getenv('OPENAI_Api_SECRET')` is a value parameter.

Three behaviours of the code that are easy to miss:

- Omitting a required key does not fail. Every required key has a non-null
  default, so an omitted key takes its default; only an explicit null fails
  (`Chat.CreateSentIff`, `Edits.CreateWithNoArguments`).
- The data accessor is null, not a decoded value, when the body is "" or "0":
  such a body is never decoded (`ApiResponse.ResultOf`).
- The base URL, the API version and the endpoint URL are static properties
  shared process-wide (`Url.UrlConfig`; the first finding below).

## Model

| member | source | states |
|---|---|---|
| Url.UrlConfig.constructor | OpenAI/Http/Url.php:28-37 | the base URL starts as `https://api.openai.com` and the version as `v1` |
| Url.Url.SetApiBaseUrl | OpenAI/Http/Url.php:46-48 | the shared base URL becomes the argument, for every `Url` object on that configuration; the version is unchanged |
| Url.Url.SetApiVersion | OpenAI/Http/Url.php:57-59 | the shared version becomes the argument; the base URL is unchanged |
| Url.Url.ApiUrl | OpenAI/Http/Url.php:68-70 | the result is the base URL, `/`, the version and `/`, character positions included |
| Url.Url.EndpointUrl | OpenAI/Http/Url.php:81-87 | every endpoint URL is the API URL followed by the endpoint path, which appends `/` and the additional path only when that path is truthy |
| Url.DefaultApiUrl | OpenAI/Http/Url.php:28-70 | with the defaults, the API URL is `https://api.openai.com/v1/` |
| Url.FalsyAdditionalPathIsDropped | OpenAI/Http/Url.php:82-86 | an additional path of "" or "0" gives the bare endpoint URL, with no trailing slash |
| Url.EndpointUrlIsUnambiguous | OpenAI/Http/Url.php:81-87 | for endpoints without `/`, equal URLs have the same endpoint, are both truthy or both falsy in the additional path, and then have the same path |
| Exceptions.NewBadRequest | src/OpenAI/Exceptions/Bad_Request.php:21 | a directly constructed `Bad_Request` has the given message and code (0 by default), no previous exception and no response |
| Exceptions.Create | OpenAI/Exceptions/Api_Exception.php:54-60 | the class it is called on; code, previous exception and response copied from the transport exception; message redacted, holding no credential, and unchanged when it held none |
| Exceptions.ResponseOfCreate | OpenAI/Exceptions/Api_Exception.php:41-57 | `get_response` returns the transport's response for an exception made by `create`, and null for one constructed directly |
| Exceptions.SanitizeFixesExactlyCleanMessages | OpenAI/Exceptions/Api_Exception.php:71-73 | the redaction returns a message unchanged if and only if no position starts `api_key=` or `access_token=` (any case) followed by a token character |
| Exceptions.SanitizeRemovesEveryCredential | OpenAI/Exceptions/Api_Exception.php:71-73 | no credential occurrence survives redaction |
| Exceptions.SanitizeIdempotent | OpenAI/Exceptions/Api_Exception.php:71-73 | redacting twice is redacting once |
| Exceptions.RedactsOneCredential | OpenAI/Exceptions/Api_Exception.php:72 | a name in any case, `=` and a maximal token run become the name as written and `=***`; what follows the run is scanned on unchanged |
| Exceptions.TokenRun | OpenAI/Exceptions/Api_Exception.php:72 | the token is the longest prefix of `[A-Za-z0-9-]` characters |
| Exceptions.MatchedSpelling | OpenAI/Exceptions/Api_Exception.php:72 | what a match keeps as `$1` is the name in its original case |
| HttpClient.ApiKeyOf | src/OpenAI/Http/Client.php:96 | the configured key when it is set (non-null), otherwise the environment's value |
| HttpClient.OrganizationOf | src/OpenAI/Http/Client.php:101-103 | the organization is stored exactly when it is set in the configuration |
| HttpClient.NewClient | src/OpenAI/Http/Client.php:87-110 | construction fails with "You must provide a OpenAI api key." exactly when the key is empty; otherwise the client holds the key, organization, options and wrap flag |
| HttpClient.Client.Request | src/OpenAI/Http/Client.php:140-165 | `request` as written: it reaches the transport exactly when the caller's `headers` option can take array elements, carrying the options as `DecorateAsWritten` leaves them, so the organization goes out as an integer-keyed list element; the reply is the transport outcome's mapping |
| HttpClient.Client.RequestCorrected | src/OpenAI/Http/Client.php:140-165 | the same request with the organization as a named header (`Decorate`) |
| HttpClient.RequestsAgreeWithoutOrganization | src/OpenAI/Http/Client.php:141-144 | without an organization the request as written and the corrected one are identical; with one they share verb, URL, reply and every option except the headers |
| HttpClient.Client.Post | src/OpenAI/Http/Client.php:178-180 | `post` sends the given verb (POST by default) to the given URL exactly when the headers can be decorated, and replies with the outcome's mapping |
| HttpClient.Client.Get | src/OpenAI/Http/Client.php:193-195 | as `post`, with GET by default |
| HttpClient.Client.Delete | src/OpenAI/Http/Client.php:208-210 | as `post`, with the lower-case "delete" by default |
| HttpClient.DecorateAsWritten | src/OpenAI/Http/Client.php:141-144 | `Authorization` becomes `Bearer <key>`, overwriting the caller's; a non-empty organization is appended as the text `OpenAI-Organization: <id>` under the next integer key; every other option is unchanged |
| HttpClient.Decorate | src/OpenAI/Http/Client.php:141-144 | as above, but the organization is the named header `OpenAI-Organization`, and all other headers are unchanged |
| HttpClient.Respond | src/OpenAI/Http/Client.php:146-164 | a delivered response is wrapped if and only if wrapping is on, and returned raw otherwise; when wrapping, a server error raises `Api_Exception` and a client error `Bad_Request`, both redacted, carrying the code and the previous exception; without wrapping, or for any other exception, the transport's exception propagates unchanged |
| HttpClient.DefaultVerbs | src/OpenAI/Http/Client.php:178-210 | `post`, `get` and `delete` send "POST", "GET" and the lower-case "delete" by default |
| HttpClient.OrganizationHeaderIsMisfiled | src/OpenAI/Http/Client.php:141-144 | with organization `org-1` the headers as written are `Authorization` and the integer key 0, and none is named `OpenAI-Organization`; the corrected decoration names it |
| AbstractEndpoint.EndpointStatics.Inherited | OpenAI/Endpoints/Abstract_Endpoint.php:40 | as declared, every endpoint class uses the same `$endpoint_url` slot |
| AbstractEndpoint.EndpointStatics.PerClass | OpenAI/Endpoints/Abstract_Endpoint.php:40 | redeclared per class, the five slots are distinct |
| AbstractEndpoint.ParseArgs | OpenAI/Endpoints/Abstract_Endpoint.php:102-116 | the loop computes the overlay of the caller's arguments on the defaults, or the arguments themselves when there are no defaults |
| AbstractEndpoint.OverlayLookup | OpenAI/Endpoints/Abstract_Endpoint.php:108-113 | after the overlay, a key set in the defaults holds the caller's value when the caller passed that key, even null; every other key keeps its value; the keys and their order do not change |
| AbstractEndpoint.ParsedArgs | OpenAI/Endpoints/Abstract_Endpoint.php:102-116 | with no defaults, the arguments are unchanged; otherwise the keys are exactly the default keys in default order, each holding the caller's value or its default; the result is a PHP array |
| AbstractEndpoint.UnknownKeysAreDropped | OpenAI/Endpoints/Abstract_Endpoint.php:108-113 | caller keys absent from the defaults never reach the result, and a caller value for a key whose default is null is ignored |
| AbstractEndpoint.CheckRequiredKeys | OpenAI/Endpoints/Abstract_Endpoint.php:127-140 | true when nothing is required, otherwise exactly when every required key exists with a non-null value |
| AbstractEndpoint.MissingKeysMessage | OpenAI/Endpoints/Images.php:103 | the message is the fixed prefix followed by the required keys joined by ", " |
| AbstractEndpoint.RequiredAfterParse | OpenAI/Endpoints/Abstract_Endpoint.php:102-140 | when every required key has a non-null default, the check after parsing passes exactly when the caller passed null for no required key |
| AbstractEndpoint.PartOf | OpenAI/Endpoints/Abstract_Endpoint.php:154-166 | each part is named by its key; the `image` part's contents are a handle opened on its path and its filename is the path's basename; every other part's contents are its value, with no filename |
| AbstractEndpoint.FormatArgsForImageMultipart | OpenAI/Endpoints/Abstract_Endpoint.php:151-170 | the loop builds one part per argument, in order, under list keys 0, 1, ... |
| AbstractEndpoint.MultipartOf | OpenAI/Endpoints/Abstract_Endpoint.php:151-170 | part `i` sits at index `i` and is the part of argument `i` |
| AbstractEndpoint.Basename | OpenAI/Endpoints/Abstract_Endpoint.php:157 | the basename holds no slash, and a path without a slash is its own basename |
| AbstractEndpoint.LastSegment | OpenAI/Endpoints/Abstract_Endpoint.php:157 | the longest slash-free suffix |
| AbstractEndpoint.JsonCreate | src/OpenAI/Endpoints/Chat.php:69-79 | the shape of every JSON `create`: rejected with a 400 `Bad_Request` listing the required keys exactly when the parsed arguments fail the check, otherwise a POST of the parsed arguments as JSON |
| AbstractEndpoint.PostJson | src/OpenAI/Endpoints/Chat.php:69-79 | the step-by-step parse, check and post computes `JsonCreate` |
| AbstractEndpoint.JsonStreamCreate | src/OpenAI/Endpoints/Chat.php:94-116 | the required-key rejection (400) comes before the missing-callback rejection (code 0); it is sent exactly when both pass, with `stream` forced to true and the callback as the cURL write function |
| AbstractEndpoint.PostJsonStream | src/OpenAI/Endpoints/Chat.php:94-116 | the step-by-step `create_stream` computes `JsonStreamCreate` |
| AbstractEndpoint.JsonCreateShape | OpenAI/Endpoints/Abstract_Endpoint.php:102-140 | for tables with non-null required defaults, a JSON create is sent exactly when no required key is passed as null, and its body has exactly the default keys |
| AbstractEndpoint.JsonStreamShape | src/OpenAI/Endpoints/Chat.php:94-116 | `create_stream` is sent exactly when `create` would be and a callback is given; a `create` rejection is returned as it is; the body sent has `stream` true |
| Chat.Chat.constructor | OpenAI/Endpoints/Abstract_Endpoint.php:86-90 | construction writes the `chat/completions` URL into the class's static slot |
| Chat.Chat.Create | src/OpenAI/Endpoints/Chat.php:69-79 | `create` is the JSON create on the stored URL with the chat tables |
| Chat.Chat.CreateStream | src/OpenAI/Endpoints/Chat.php:94-116 | `create_stream` is the stream create on the stored URL with the chat tables |
| Chat.DefaultsWellFormed | src/OpenAI/Endpoints/Chat.php:35-55 | the default table is a PHP array in which `messages` and `model` are set |
| Chat.DefaultKeys | src/OpenAI/Endpoints/Chat.php:43-55 | the default keys are the six names, in order |
| Chat.CreateSentIff | src/OpenAI/Endpoints/Chat.php:35-73 | a chat is sent if and only if neither `messages` nor `model` is passed as null; a rejection is the 400 `Bad_Request` listing `messages, model` |
| Chat.CreateSendsOnlyDefaultKeys | src/OpenAI/Endpoints/Chat.php:43-70 | the body has exactly the six default keys, so a caller's `n` or `stream` never reaches it |
| Chat.CreateStreamSentIff | src/OpenAI/Endpoints/Chat.php:94-116 | a stream is sent if and only if the required keys pass and a callback is given; a null key gives 400 before a missing callback gives 0; `stream` is true in what is sent |
| Chat.CreateWithNoArguments | src/OpenAI/Endpoints/Chat.php:43-79 | `create([])` posts the default table itself |
| Completions.Completions.Create | src/OpenAI/Endpoints/Completions.php:66-76 | `create` is the JSON create on the stored URL with the completion tables |
| Completions.Completions.CreateStream | src/OpenAI/Endpoints/Completions.php:91-113 | `create_stream` is the stream create on the stored URL with the completion tables |
| Completions.DefaultsWellFormed | src/OpenAI/Endpoints/Completions.php:35-49 | the default table is a PHP array whose `prompt`, `model` and `max_tokens` are the default prompt, `text-davinci-003` and 25 |
| Completions.CreateSentIff | src/OpenAI/Endpoints/Completions.php:35-70 | a completion is sent if and only if `model` is not passed as null; a rejection is the 400 `Bad_Request` naming `model`; a null `prompt` is sent as null |
| Completions.OmittedKeysTakeDefaults | src/OpenAI/Endpoints/Completions.php:42-49 | omitted `model` and `max_tokens` take their defaults, `text-davinci-003` and 25 |
| Completions.CreateStreamSentIff | src/OpenAI/Endpoints/Completions.php:91-113 | a stream is sent if and only if `model` is not null and a callback is given, with `stream` true; otherwise a 400 or a code-0 `Bad_Request` |
| Edits.Edits.Create | src/OpenAI/Endpoints/Edits.php:62-72 | `create` is the JSON create on the stored URL with the edit tables |
| Edits.DefaultsWellFormed | src/OpenAI/Endpoints/Edits.php:41-45 | the default keys are `input`, `instruction` and `model`, all set |
| Edits.CreateSentIff | src/OpenAI/Endpoints/Edits.php:33-66 | an edit is sent if and only if neither `instruction` nor `model` is passed as null; a rejection is the 400 `Bad_Request` whose message lists all the required keys, `instruction, model`, whichever of them is null; a null `input` is accepted |
| Edits.CreateWithNoArguments | src/OpenAI/Endpoints/Edits.php:41-71 | `create([])` posts exactly the three default keys |
| Images.Images.constructor | OpenAI/Endpoints/Images.php:27-44 | construction writes the `images` URL into the static slot and starts with the generation tables |
| Images.Images.Create | OpenAI/Endpoints/Images.php:98-110 | `create` is a JSON create on `images/generations`, checked against the tables the object holds at that moment |
| Images.Images.Edits | OpenAI/Endpoints/Images.php:130-152 | `edits` installs the edit tables for good, then runs the multipart create on `images/edits` |
| Images.Images.Variations | OpenAI/Endpoints/Images.php:172-194 | `variations` installs the variation tables for good, then runs the multipart create on the same `images/edits` URL |
| Images.MultipartCreate | OpenAI/Endpoints/Images.php:135-151 | the required-key rejection comes first; once it passes, the call is sent if and only if the image path exists, otherwise it is a 400 naming the path; what is sent is the multipart of the parsed arguments |
| Images.PostMultipart | OpenAI/Endpoints/Images.php:135-151 | the step-by-step edits/variations body computes `MultipartCreate` |
| Images.DefaultsWellFormed | OpenAI/Endpoints/Images.php:32-44 | the generation table has `prompt` set and no `image` |
| Images.EditsDefaultsWellFormed | OpenAI/Endpoints/Images.php:49-63 | the edit table has five keys, `image` first with default "", and `prompt` set |
| Images.VariationsDefaultsWellFormed | OpenAI/Endpoints/Images.php:68-80 | the variation table has four keys, `image` first with default "" |
| Images.CreateSentIff | OpenAI/Endpoints/Images.php:101-104 | a generation is sent if and only if `prompt` is not passed as null; a rejection is the 400 naming `prompt` |
| Images.CreateWithNoArguments | OpenAI/Endpoints/Images.php:32-44 | `create([])` passes and posts the generation defaults |
| Images.CreateAfterEdits | OpenAI/Endpoints/Images.php:131-132 | once `edits` has run, `create([])` posts the edit defaults, `image` included, to the generations URL |
| Images.EditsSentIff | OpenAI/Endpoints/Images.php:130-152 | a null `image` or `prompt` is rejected first, with both keys listed; then a missing file; otherwise five parts are sent, the first opening the checked path and carrying its basename |
| Images.EditsWithoutImage | OpenAI/Endpoints/Images.php:136-142 | without an `image` argument, `edits` always fails the file check, because the default path "" never exists |
| Images.VariationsSentIff | OpenAI/Endpoints/Images.php:172-194 | a null `image` is rejected first; then a missing file; otherwise four parts are sent, the first opening the checked path |
| Images.MultipartShape | OpenAI/Endpoints/Images.php:135-151 | for image-first tables, the key rejection happens exactly when a required key is passed as null; otherwise the call is sent exactly when the file exists, with one part per default key |
| Models.Models.constructor | OpenAI/Endpoints/Abstract_Endpoint.php:86-90 | construction writes the `models` URL into the class's static slot |
| Models.Models.Retrieve | OpenAI/Endpoints/Models.php:64-71 | a GET with no arguments to the API URL followed by `models/<model>` |
| Models.Models.DeleteAsWritten | OpenAI/Endpoints/Models.php:93-100 | `delete` as written is the same call as `retrieve` |
| Models.Models.Delete | OpenAI/Endpoints/Models.php:93-100 | the corrected `delete` uses the client's delete verb on the retrieve URL |
| Models.Models.All | OpenAI/Endpoints/Models.php:41-46 | `all` is a GET without arguments of whatever URL the static slot holds when it is called |
| Models.AllListsModels | OpenAI/Endpoints/Models.php:41-46 | after construction, `all` is a GET of `<api>/models`, the same as `retrieve` of "" or "0" |
| Models.RetrieveIsUnambiguous | OpenAI/Endpoints/Models.php:64-71 | distinct true model names reach distinct URLs, never equal to the listing URL |
| Models.DeleteIsRetrieve | OpenAI/Endpoints/Models.php:93-100 | `delete` as written sends a GET, identical to `retrieve`, and differs from the corrected delete |
| EndpointUrlSharing.SharedSlotAsWritten | OpenAI/Endpoints/Abstract_Endpoint.php:40 | after a `Chat` is constructed, an earlier `Models` object's `all` goes to the chat completions URL |
| EndpointUrlSharing.PerClassSlots | OpenAI/Endpoints/Abstract_Endpoint.php:40 | with one slot per class, the `Models` object keeps listing `models` |
| RequestApi.Decide | OpenAI/Http/Request_Api.php:162-252 | a `WP_Error` is passed on; for a response, the code is unexpected if and only if the expected code is not null and differs under `!==`; the error carries the received code |
| RequestApi.RequestKeepsAcceptedReplies | OpenAI/Http/Request_Api.php:162-252 | for every expected code, an accepted reply is the transport's reply unchanged; a `WP_Error` always passes on as an error; a response is accepted exactly when no code is expected or its code is the expected one; a refused reply would be accepted with no expected code |
| RequestApi.VerbsDifferOnlyInMethod | OpenAI/Http/Request_Api.php:267-325 | with the same expected code, the verb helpers send the same URL and arguments except `method`, which differs, and reach the same decision |
| RequestApi.WithMethod | OpenAI/Http/Request_Api.php:267-325 | `method` is set to the verb and every other argument is unchanged |
| RequestApi.Post | OpenAI/Http/Request_Api.php:267-271 | `method` becomes POST whatever the caller put there; other arguments are unchanged; the result is the expected-code decision |
| RequestApi.Patch | OpenAI/Http/Request_Api.php:285-289 | as `post`, with PATCH |
| RequestApi.Put | OpenAI/Http/Request_Api.php:303-307 | as `post`, with PUT |
| RequestApi.Get | OpenAI/Http/Request_Api.php:321-325 | as `post`, with GET |
| RequestApi.DefaultExpectedCodes | OpenAI/Http/Request_Api.php:77-113 | a 200 is accepted by default for POST, PUT and GET but is an error for PATCH, which expects 204; a null expected code accepts a 500 |
| RequestApi.MissingChecks | OpenAI/Http/Request_Api.php:347 | the missing checks are exactly the checks that are not keys of the body |
| RequestApi.HasProperResponseBody | OpenAI/Http/Request_Api.php:337-352 | false for an empty or non-array body; true for a non-empty array with no checks; otherwise true if and only if every check is a key |
| RequestApi.ValuesAreNotChecked | OpenAI/Http/Request_Api.php:347-349 | a checked key holding null passes, and one missing checked key fails |
| ApiResponse.ResultOf | src/OpenAI/Http/Api_Response.php:66-70 | the result is the decoded contents, or null when the contents are "" or "0" |
| ApiResponse.ApiResponse.constructor | src/OpenAI/Http/Api_Response.php:52-55 | the wrapper stores the response, and its result is the decoded body as `ResultOf` gives it |
| ApiResponse.ApiResponse.Get | src/OpenAI/Http/Api_Response.php:81-83 | `__get` gives the result's property, or null when the property is missing or the result is not an object |
| ApiResponse.ApiResponse.GetData | src/OpenAI/Http/Api_Response.php:92-94 | `get_data` returns the stored result |
| ApiResponse.ApiResponse.OffsetExists | src/OpenAI/Http/Api_Response.php:116-118 | an offset exists if and only if reading it gives something other than null |
| ApiResponse.ApiResponse.OffsetSet | src/OpenAI/Http/Api_Response.php:143-145 | on an object result, the property is set, a non-null value then exists, and every other property is unchanged; otherwise PHP raises an error and nothing changes |
| ApiResponse.ApiResponse.OffsetUnset | src/OpenAI/Http/Api_Response.php:154-156 | the property no longer exists and every other property is unchanged |
| ApiResponse.IssetIsNonNullRead | src/OpenAI/Http/Api_Response.php:116-133 | `isset` agrees with the property read |
| ApiResponse.SetThenIsSet | src/OpenAI/Http/Api_Response.php:143-145 | a set property reads back as its value, and other properties are unchanged |
| ApiResponse.UnsetThenNotSet | src/OpenAI/Http/Api_Response.php:154-156 | an unset property is no longer set, and other properties are unchanged |
| ApiResponse.ApiResponse.GetProtocolVersion | src/OpenAI/Http/Api_Response.php:165-167 | the wrapped response's protocol version |
| ApiResponse.ApiResponse.GetHeaders | src/OpenAI/Http/Api_Response.php:216-218 | the wrapped response's header fields |
| ApiResponse.ApiResponse.HasHeader | src/OpenAI/Http/Api_Response.php:231-233 | true if and only if some field's name matches ignoring ASCII case |
| ApiResponse.ApiResponse.GetHeader | src/OpenAI/Http/Api_Response.php:252-254 | no values when no field matches; otherwise every value of every field whose name matches ignoring ASCII case, nothing from any other field, in field order |
| ApiResponse.ApiResponse.GetHeaderLine | src/OpenAI/Http/Api_Response.php:278-280 | the header's values joined by ", ", or "" when there is no such header |
| ApiResponse.ApiResponse.GetBody | src/OpenAI/Http/Api_Response.php:355-357 | the wrapped response's body |
| ApiResponse.ApiResponse.GetStatusCode | src/OpenAI/Http/Api_Response.php:390-392 | the wrapped response's status code |
| ApiResponse.ApiResponse.GetReasonPhrase | src/OpenAI/Http/Api_Response.php:439-441 | the wrapped response's reason phrase |

## Left out

- The HTTP transports: Guzzle's `request`, `wp_remote_request` and `wp_remote_retrieve_*`. Their outcome is an input. Guzzle upper-casing the verb and its header normalisation are not modelled.
- The cURL stream callback is an opaque value installed under `CURLOPT_WRITEFUNCTION` (20011). Server-sent events are not modelled.
- The WordPress plumbing of `Request_Api::request`: `apply_filters`, `do_action` logging, transient notices and translated user messages. The model takes the filters as passing the request and the response through.
- `Request_Api::request` calls `Api_Response::ensure_response`, which `Api_Response` does not define. It also hands arrays and `WP_Error`s to a constructor typed for PSR-7 responses. Those wrapper calls are not modelled; the result is the reply itself, or the error.
- `json_decode` and `json_encode` are not modelled: decoding is a function parameter. For the same reason `toArray` and `offsetGet`, which re-encode and decode the result, are left out.
- The PSR-7 `with*` methods of `Api_Response` (Api_Response.php:185-421) are left out: they forward to an immutable foreign object and return its new object unwrapped.
- Floats, such as the `temperature` defaults, are opaque literals. Nothing computes with them.
- `fopen` is a `Resource(path)` value. `file_exists` is membership in a given set of paths, and the empty path never exists. `getenv` is a value parameter.
- `Basename` is the part after the last `/` once trailing slashes are removed. Locale and other separators are not modelled.
- `Provider::__call` (OpenAI/Provider.php:80-84) is not modelled: it builds endpoint objects by class name.
- `Provider::create` and the client's stored transport object are not modelled. Endpoints return the call they would make, and `HttpClient.Client.Perform` relates a call to the client.
- The client's `client_options` are stored but never used by the code. The model keeps them unused.
- PHP's normalisation of numeric-string keys such as `"1"` to integers is not modelled.
- `PhpString` converts scalars as PHP does. Arrays, resources and callables give "", where PHP gives "Array" or raises an error.
- Http.HttpResponse.HeaderValues, and with it ApiResponse.ApiResponse.GetHeader, gathers the values of every field whose name matches. It does not model Guzzle's merging of same-named fields at parse time.
- AbstractEndpoint.Basename: states only that the result holds no slash and fixes slash-free paths; `LastSegment` and `StripTrailingSlashes` give the rest.

## Findings

| source | as written | input that shows it | evidently intended | confidence | as-written member | corrected member |
|---|---|---|---|---|---|---|
| OpenAI/Endpoints/Abstract_Endpoint.php:40 | `$endpoint_url` is declared static on the abstract class only, so every endpoint constructor writes the same property | construct `Models`, then `Chat`; `Models::all()` then lists from `<api>/chat/completions` | one endpoint URL per endpoint class (or per object) | high, not executed | EndpointUrlSharing.SharedSlotAsWritten | EndpointUrlSharing.PerClassSlots |
| OpenAI/Endpoints/Models.php:93-100 | `delete` calls the client's `get` | `delete("m")` sends a GET of `<api>/models/m`, identical to `retrieve("m")` | the client's `delete` | high, not executed | Models.DeleteIsRetrieve | Models.Models.Delete |
| src/OpenAI/Http/Client.php:142-144 | the organization is appended as a list element `OpenAI-Organization: <id>` | organization `org-1`: the headers are `Authorization` and the integer key 0, and none is named `OpenAI-Organization` | the header `OpenAI-Organization: <id>` | medium, not executed | HttpClient.OrganizationHeaderIsMisfiled | HttpClient.Decorate |
