/** The `Models` endpoint: list, retrieve and delete models. Each method
    computes one URL and forwards one call to the client. */
module Models {
  import opened Php
  import opened HttpClient
  import opened Url
  import opened AbstractEndpoint

  const Path := "models"

  class Models {
    const url: Url
    const endpointUrl: EndpointUrlCell

    /** The inherited constructor: stores the URL handler and writes this
        class's endpoint URL into its static slot. */
    constructor(url: Url, slot: EndpointUrlCell)
      modifies slot
      ensures this.url == url && endpointUrl == slot
      ensures slot.value == url.EndpointUrl(Path)
    {
      this.url := url;
      endpointUrl := slot;
      slot.value := url.EndpointUrl(Path);
    }

    /** `all`: a GET without arguments to whatever URL the static slot
        holds when it is called. */
    function All(): (c: ClientCall)
      reads endpointUrl
      ensures c == ClientCall("GET", endpointUrl.value, [])
    {
      ClientCall("GET", endpointUrl.value, [])
    }

    /** `retrieve`: a GET without arguments to `models/<model>`. */
    function Retrieve(model: string): (c: ClientCall)
      reads url.config
      ensures c.verb == "GET" && c.args == []
      ensures c.url == url.ApiUrl() + EndpointPath(Path, model)
    {
      ClientCall("GET", url.EndpointUrl(Path, model), [])
    }

    /** `delete` as written: the same GET as `retrieve`. */
    function DeleteAsWritten(model: string): (c: ClientCall)
      reads url.config
      ensures c == Retrieve(model)
    {
      ClientCall("GET", url.EndpointUrl(Path, model), [])
    }

    /** `delete` as intended: the client's `delete` verb on the same URL. */
    function Delete(model: string): (c: ClientCall)
      reads url.config
      ensures c.url == Retrieve(model).url && c.args == []
      ensures c.verb == "delete" && c.verb != Retrieve(model).verb
    {
      ClientCall("delete", url.EndpointUrl(Path, model), [])
    }
  }

  /** Right after construction, `all` lists the models at `models`: the
      URL `retrieve` gives for an empty or "0" model name. */
  lemma AllListsModels(m: Models, model: string)
    requires m.endpointUrl.value == m.url.EndpointUrl(Path)
    requires !Truthy(model)
    ensures m.All() == m.Retrieve(model)
    ensures m.All().url == m.url.ApiUrl() + "models"
  {
  }

  /** Distinct model names reach distinct URLs: a retrieve URL determines
      the (true) model name, and never equals the listing URL. */
  lemma RetrieveIsUnambiguous(m: Models, model1: string, model2: string)
    requires Truthy(model1)
    ensures m.Retrieve(model1).url == m.Retrieve(model2).url ==> model1 == model2
    ensures m.Retrieve(model1).url != m.Retrieve("").url
  {
    if m.Retrieve(model1).url == m.Retrieve(model2).url {
      EndpointUrlIsUnambiguous(m.url, Path, model1, Path, model2);
    }
    if m.Retrieve(model1).url == m.Retrieve("").url {
      EndpointUrlIsUnambiguous(m.url, Path, model1, Path, "");
    }
  }

  /** The delete as written is indistinguishable from a retrieve: it sends
      no deletion at all. */
  lemma DeleteIsRetrieve(m: Models, model: string)
    ensures m.DeleteAsWritten(model).verb == "GET"
    ensures m.DeleteAsWritten(model) == m.Retrieve(model)
    ensures m.Delete(model) != m.DeleteAsWritten(model)
  {
  }
}
