/** The API key generator: registers a consumer with a `key-auth`
    credential and shows the key once. The key itself is an input: it comes
    from `Math.random()`, which this model does not describe. */
module ApiKeygen {
  import opened AdminApi

  /** The body of `PUT /apisix/admin/consumers/{username}`. */
  datatype Consumer = Consumer(username: string, plugins: Plugins)

  const SuccessPrefix := "API Key successfully generated for \""
  const FailureMessage := "Failed to generate API key."

  /** The payload for a consumer name and a key: the name, and a plugin block
      holding nothing but `key-auth` with that key. */
  function Payload(consumerName: string, key: string): (c: Consumer)
    ensures c.username == consumerName
    ensures c.plugins.proxyRewrite.None?
    ensures c.plugins.keyAuth == Some(KeyAuth(Some(key)))
  {
    Consumer(consumerName, Plugins(None, Some(KeyAuth(Some(key)))))
  }

  /** The key a consumer payload carries, if any. */
  function KeyOf(c: Consumer): Option<string>
  {
    match c.plugins.keyAuth
    case None => None
    case Some(auth) => auth.key
  }

  /** `API Key successfully generated for "${consumerName}"` */
  function SuccessMessage(consumerName: string): (m: string)
    ensures |m| == |SuccessPrefix| + |consumerName| + 1
    ensures m[..|SuccessPrefix|] == SuccessPrefix && m[|m| - 1] == '"'
    ensures m[|SuccessPrefix|..|m| - 1] == consumerName
  {
    SuccessPrefix + consumerName + "\""
  }

  /** The PUT `handleGenerate` sends, if any: none for an empty name,
      otherwise the payload at the path named by the same consumer name. */
  function GenerateRequest(consumerName: string, key: string): (r: Option<PutRequest<Consumer>>)
    ensures r.Some? <==> consumerName != ""
    ensures r.Some? ==> r.value.path == ResourcePath("consumers", consumerName)
    ensures r.Some? ==> r.value.body.username == consumerName && KeyOf(r.value.body) == Some(key)
    ensures r.Some? ==> r.value.body == Payload(consumerName, key)
  {
    if consumerName == "" then None
    else Some(PutRequest(ResourcePath("consumers", consumerName), Payload(consumerName, key)))
  }

  /** The message alone tells success from failure, whatever the name. */
  lemma SuccessNotFailure(consumerName: string)
    ensures SuccessMessage(consumerName) != FailureMessage
  {
  }

  /** The success message names the consumer: two different names give two
      different messages. */
  lemma SuccessMessageInjective(name1: string, name2: string)
    requires SuccessMessage(name1) == SuccessMessage(name2)
    ensures name1 == name2
  {
  }

  /** The component's state. */
  class ApiKeyGenerator {
    var consumerName: string
    var apiKey: string
    var message: string

    constructor ()
      ensures consumerName == "" && apiKey == "" && message == ""
    {
      consumerName := "";
      apiKey := "";
      message := "";
    }

    /** The name input's `onChange`. */
    method SetConsumerName(name: string)
      modifies this`consumerName
      ensures consumerName == name
    {
      consumerName := name;
    }

    /** `handleGenerate` with `key` as the generated key and `put` as the
        outcome of the PUT. */
    method Generate(key: string, put: Ack) returns (sent: Option<PutRequest<Consumer>>)
      modifies this`apiKey, this`message
      ensures sent == GenerateRequest(consumerName, key)
      ensures sent.None? ==> apiKey == old(apiKey) && message == old(message)
      ensures sent.Some? && put.Accepted? ==> apiKey == key && message == SuccessMessage(consumerName)
      ensures sent.Some? && put.Accepted? ==> Some(apiKey) == KeyOf(sent.value.body)
      ensures sent.Some? && put.Rejected? ==> apiKey == old(apiKey) && message == FailureMessage
    {
      sent := GenerateRequest(consumerName, key);
      if sent.None? {
        return;
      }
      if put.Accepted? {
        apiKey := key;
        message := SuccessMessage(consumerName);
      } else {
        message := FailureMessage;
      }
    }
  }
}
