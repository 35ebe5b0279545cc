/** The text-completion provider as app.py sees it (app.py:75-108): the
    request it builds, and the outcome of the one call it makes. The HTTP
    client, the secret store and the JSON decoder are outside the model;
    what they can hand back is the `Outcome` value. */
module Provider {
  import opened Wrappers

  /** A decoded JSON document, as `response.json()` returns it, except that
      numbers are integers only: fractional numbers are not modelled, which
      changes nothing on the extraction path, where any number fails alike. */
  datatype Json =
    | JNull
    | JBool(b: bool)
    | JNumber(n: int)
    | JString(s: string)
    | JArray(items: seq<Json>)
    | JObject(fields: map<string, Json>)

  /** The reply body: either a JSON document, or text `response.json()`
      cannot decode (it raises). */
  datatype Body = Undecodable | Decoded(json: Json)

  /** Why the call raised before any response existed. */
  datatype Failure =
    | SecretMissing    // `st.secrets["DEEPSEEK_API_KEY"]` raised
    | Transport        // `requests.post` raised: no connection, timeout after 30 s, ...

  /** What the one provider call came to. */
  datatype Outcome = Raised(failure: Failure) | Replied(status: int, body: Body)

  /** Python's `j[key]` on a decoded document: a key lookup on an object;
      on anything else it raises. */
  function Field(j: Json, key: string): Option<Json>
  {
    if j.JObject? && key in j.fields then Some(j.fields[key]) else None
  }

  /** Python's `j[0]` as used on `choices`: the first item of a non-empty
      array. On an object it is a lookup of key 0, which JSON objects never
      have; on a string it yields a one-character string, which the
      following `['message']` rejects; so only arrays get through. */
  function First(j: Json): Option<Json>
  {
    if j.JArray? && |j.items| > 0 then Some(j.items[0]) else None
  }

  /** `result['choices'][0]['message']['content']`, when every step
      succeeds and the content is a string (the only kind of value that has
      `.strip()`); `None` for every shape that makes the expression raise. */
  function FirstChoiceContent(j: Json): (r: Option<string>)
    ensures r.Some? <==>
      (j.JObject? && "choices" in j.fields
       && j.fields["choices"].JArray? && |j.fields["choices"].items| > 0
       && j.fields["choices"].items[0].JObject?
       && "message" in j.fields["choices"].items[0].fields
       && j.fields["choices"].items[0].fields["message"].JObject?
       && "content" in j.fields["choices"].items[0].fields["message"].fields
       && j.fields["choices"].items[0].fields["message"].fields["content"].JString?)
    ensures r.Some? ==>
      r.value == j.fields["choices"].items[0].fields["message"].fields["content"].s
  {
    match Field(j, "choices")
    case None => None
    case Some(choices) =>
      match First(choices)
      case None => None
      case Some(choice) =>
        match Field(choice, "message")
        case None => None
        case Some(message) =>
          match Field(message, "content")
          case Some(JString(text)) => Some(text)
          case _ => None
  }

  /** The smallest reply body that carries `text` as the first choice's content. */
  function CompletionJson(text: string): Json
  {
    JObject(map["choices" := JArray([JObject(map["message" := JObject(map["content" := JString(text)])])])])
  }

  /** Extraction undoes building a completion reply, whatever other fields
      the provider adds at each level. */
  lemma ExtractsCompletion(text: string, extraTop: map<string, Json>,
                           extraChoice: map<string, Json>, extraMessage: map<string, Json>)
    ensures FirstChoiceContent(CompletionJson(text)) == Some(text)
    ensures var message := JObject(extraMessage["content" := JString(text)]);
            var choice := JObject(extraChoice["message" := message]);
            FirstChoiceContent(JObject(extraTop["choices" := JArray([choice])])) == Some(text)
  {
  }

  /** The text the call produced, when it produced one: status 200 and a
      body from which the content can be read. */
  function ReplyText(o: Outcome): (r: Option<string>)
    ensures r.Some? ==> o.Replied? && o.status == 200 && o.body.Decoded?
                        && FirstChoiceContent(o.body.json) == r
    ensures (o.Replied? && o.status == 200 && o.body.Decoded?
             && FirstChoiceContent(o.body.json).Some?) ==> r.Some?
  {
    match o
    case Raised(_) => None
    case Replied(status, body) =>
      if status != 200 then None
      else match body
        case Undecodable => None
        case Decoded(j) => FirstChoiceContent(j)
  }

  /** One chat message of the request body. */
  datatype Message = Message(role: string, content: string)

  /** The request app.py sends (app.py:78-99), less `temperature` and
      `top_p`, which are fixed floats passed through unread. */
  datatype Request = Request(
    url: string,
    authorization: string,
    contentType: string,
    model: string,
    messages: seq<Message>,
    maxTokens: nat,
    timeoutSeconds: nat)

  const Endpoint: string := "https://api.deepseek.com/v1/chat/completions"
  const ModelName: string := "deepseek-chat"
  const MaxTokens: nat := 600
  const TimeoutSeconds: nat := 30

  /** The request for a system and a user prompt, authorised with `apiKey`:
      the key travels only in the bearer header, and the two prompts are
      sent unchanged, system first. */
  function BuildRequest(apiKey: string, systemPrompt: string, userPrompt: string): (r: Request)
    ensures r.authorization == "Bearer " + apiKey
    ensures r.contentType == "application/json"
    ensures |r.messages| == 2
    ensures r.messages[0] == Message("system", systemPrompt)
    ensures r.messages[1] == Message("user", userPrompt)
    ensures r.url == Endpoint && r.model == ModelName
    ensures r.maxTokens == MaxTokens && r.timeoutSeconds == TimeoutSeconds
  {
    Request(Endpoint, "Bearer " + apiKey, "application/json", ModelName,
            [Message("system", systemPrompt), Message("user", userPrompt)],
            MaxTokens, TimeoutSeconds)
  }
}
