/** What the static `$endpoint_url` layout means for a program that holds
    on to one endpoint object while creating another. The property is
    declared once, on the abstract base class, so every endpoint class's
    constructor writes the same slot. */
module EndpointUrlSharing {
  import opened Php
  import opened HttpClient
  import opened Url
  import opened AbstractEndpoint
  import Models
  import Chat

  /** As written: after a `Chat` endpoint is constructed, an earlier
      `Models` object's `all` lists from the chat completions URL. */
  method SharedSlotAsWritten(url: Url) returns (before: ClientCall, after: ClientCall)
    ensures before.url == url.EndpointUrl(Models.Path)
    ensures after.url == url.EndpointUrl(Chat.Path)
    ensures before.url != after.url
  {
    var statics := new EndpointStatics.Inherited();
    var models := new Models.Models(url, statics.models);
    before := models.All();
    var chat := new Chat.Chat(url, statics.chat);
    after := models.All();
    assert |before.url| != |after.url|;
  }

  /** With one slot per class, a `Models` object keeps listing from
      `models` whatever endpoint is constructed after it. */
  method PerClassSlots(url: Url) returns (before: ClientCall, after: ClientCall)
    ensures before.url == url.EndpointUrl(Models.Path)
    ensures after == before
  {
    var statics := new EndpointStatics.PerClass();
    var models := new Models.Models(url, statics.models);
    before := models.All();
    var chat := new Chat.Chat(url, statics.chat);
    after := models.All();
  }
}
