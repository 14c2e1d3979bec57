/** The request checks of the OpenAI-compatible API agent: the bearer-key
    dependency every endpoint runs first, the model lookup, and the defaults
    the two completion endpoints fill in before handing the agent's response
    to the response builders. */
module OpenAiApi {
  import opened Wrappers
  import opened Text
  import opened JsonData

  /** An `HTTPException`: status code and detail text. */
  datatype HttpError = HttpError(status: nat, detail: string)

  const MissingHeader := HttpError(401, "Missing Authorization header")
  const BadFormat := HttpError(401, "Invalid Authorization header format")
  const BadScheme := HttpError(401, "Authorization scheme must be 'Bearer'")
  const KeyRejected := HttpError(401, "API Key not valid")
  const ModelNotFound := HttpError(404, "Model not found")
  /** What the framework answers when an endpoint raises anything else. */
  const InternalError := HttpError(500, "Internal Server Error")

  // ---------------------------------------------------------------------
  // verify_api_key
  // ---------------------------------------------------------------------

  /** `verify_api_key`: the `Authorization` header must be `<scheme> <token>`
      split on single spaces into exactly two parts, the scheme must be
      `bearer` in any case, and a non-empty whitelist must list the token.
      The token is returned. */
  function VerifyApiKey(authorization: Option<string>, whitelist: seq<string>): (r: Result<string, HttpError>)
    ensures r == Failure(MissingHeader) <==> authorization.None? || authorization == Some("")
    ensures r.Failure? ==> r.error in {MissingHeader, BadFormat, BadScheme, KeyRejected}
    // an accepted key is listed, unless nothing is listed
    ensures r.Success? ==> |whitelist| == 0 || r.value in whitelist
    // an accepted key is the header's part after its only space
    ensures r.Success? ==> ' ' !in r.value && EndsWith(authorization.value, " " + r.value)
    // each refusal of a present header is tied to its cause: not exactly two
    // space-separated parts, a scheme other than bearer, or an unlisted token
    ensures authorization.Some? && authorization.value != "" ==>
      var parts := Split(authorization.value, ' ');
      && (r == Failure(BadFormat) <==> |parts| != 2)
      && (r == Failure(BadScheme) <==> |parts| == 2 && Lower(parts[0]) != "bearer")
      && (r == Failure(KeyRejected) <==>
            |parts| == 2 && Lower(parts[0]) == "bearer" && |whitelist| > 0 && parts[1] !in whitelist)
  {
    if authorization.None? || authorization.value == "" then Failure(MissingHeader)
    else
      var parts := Split(authorization.value, ' ');
      if |parts| != 2 then Failure(BadFormat)  // unpacking raises ValueError
      else if Lower(parts[0]) != "bearer" then Failure(BadScheme)  // not caught by `except ValueError`
      else if |whitelist| > 0 && parts[1] !in whitelist then Failure(KeyRejected)
      else
        JoinSplit(authorization.value, ' ');
        assert authorization.value == parts[0] + " " + parts[1];
        Success(parts[1])
  }

  /** An accepted header is exactly a bearer scheme, one space and the token. */
  lemma AcceptedHeaderShape(authorization: Option<string>, whitelist: seq<string>)
    requires VerifyApiKey(authorization, whitelist).Success?
    ensures var token := VerifyApiKey(authorization, whitelist).value;
            exists scheme :: Lower(scheme) == "bearer" && ' ' !in scheme
                             && authorization == Some(scheme + " " + token)
  {
    var parts := Split(authorization.value, ' ');
    JoinSplit(authorization.value, ' ');
    assert authorization.value == parts[0] + " " + parts[1];
    assert ' ' !in parts[0];
  }

  /** Round trip: `Bearer <token>` is accepted, in any case of the scheme,
      and yields the token, whenever the token has no space and the whitelist
      is empty or lists it. */
  lemma BearerTokenAccepted(scheme: string, token: string, whitelist: seq<string>)
    requires Lower(scheme) == "bearer" && ' ' !in scheme && ' ' !in token
    requires |whitelist| == 0 || token in whitelist
    ensures VerifyApiKey(Some(scheme + " " + token), whitelist) == Success(token)
  {
    BearerParts(scheme, token);
  }

  /** A well-formed bearer header with an unlisted token is refused when a whitelist exists. */
  lemma UnlistedTokenRejected(scheme: string, token: string, whitelist: seq<string>)
    requires Lower(scheme) == "bearer" && ' ' !in scheme && ' ' !in token
    requires |whitelist| > 0 && token !in whitelist
    ensures VerifyApiKey(Some(scheme + " " + token), whitelist) == Failure(KeyRejected)
  {
    BearerParts(scheme, token);
  }

  /** Another scheme is refused with its own message, whatever the token. */
  lemma OtherSchemeRejected(scheme: string, token: string, whitelist: seq<string>)
    requires Lower(scheme) != "bearer" && ' ' !in scheme && ' ' !in token
    ensures VerifyApiKey(Some(scheme + " " + token), whitelist) == Failure(BadScheme)
  {
    BearerParts(scheme, token);
  }

  /** Two spaces make three parts: the header is malformed. */
  lemma DoubleSpaceRejected(scheme: string, token: string, whitelist: seq<string>)
    requires ' ' !in scheme && ' ' !in token
    ensures VerifyApiKey(Some(scheme + "  " + token), whitelist) == Failure(BadFormat)
  {
    var h := scheme + "  " + token;
    assert h == scheme + [' '] + ([' '] + token);
    SplitAtFirstSep(scheme, ' ', [' '] + token);
    SplitWithoutSep(scheme, ' ');
    assert [' '] + token == [] + [' '] + token;
    SplitAtFirstSep([], ' ', token);
    SplitWithoutSep(token, ' ');
  }

  /** A header without any space, such as a bare `Bearer`, is one part: malformed. */
  lemma SpaceFreeHeaderRejected(header: string, whitelist: seq<string>)
    requires header != "" && ' ' !in header
    ensures VerifyApiKey(Some(header), whitelist) == Failure(BadFormat)
  {
    SplitWithoutSep(header, ' ');
  }

  /** The header `scheme token` splits into exactly those two parts. */
  lemma BearerParts(scheme: string, token: string)
    requires ' ' !in scheme && ' ' !in token
    ensures Split(scheme + " " + token, ' ') == [scheme, token]
  {
    assert [scheme, token][1..] == [token];
    assert JoinWith([scheme, token], ' ') == scheme + " " + token;
    SplitJoin([scheme, token], ' ');
  }

  // ---------------------------------------------------------------------
  // get_model
  // ---------------------------------------------------------------------

  /** One entry of the configured model list. */
  type ModelEntry = map<string, Json>

  /** The entries whose `id` is the requested one, in list order. */
  function Matching(models: seq<ModelEntry>, modelId: string): (found: seq<ModelEntry>)
    requires forall i :: 0 <= i < |models| ==> "id" in models[i]
    ensures forall m :: m in found <==> m in models && m["id"] == JString(modelId)
    decreases |models|
  {
    if models == [] then []
    else
      var rest := Matching(models[1..], modelId);
      assert forall m :: m in models <==> m == models[0] || m in models[1..];
      if models[0]["id"] == JString(modelId) then [models[0]] + rest else rest
  }

  /** The first entry of `Matching` is the first entry of the list that matches. */
  lemma {:induction false} FirstMatchIsFirst(models: seq<ModelEntry>, modelId: string)
    requires forall i :: 0 <= i < |models| ==> "id" in models[i]
    requires Matching(models, modelId) != []
    ensures exists i :: 0 <= i < |models| && models[i] == Matching(models, modelId)[0]
                        && forall j :: 0 <= j < i ==> models[j]["id"] != JString(modelId)
    decreases |models|
  {
    if models[0]["id"] != JString(modelId) {
      FirstMatchIsFirst(models[1..], modelId);
      var i :| 0 <= i < |models[1..]| && models[1..][i] == Matching(models[1..], modelId)[0]
               && forall j :: 0 <= j < i ==> models[1..][j]["id"] != JString(modelId);
      assert models[i + 1] == Matching(models, modelId)[0];
      assert forall j :: 0 <= j < i + 1 ==> models[j]["id"] != JString(modelId) by {
        forall j | 0 <= j < i + 1
          ensures models[j]["id"] != JString(modelId)
        {
          if j > 0 {
            assert models[j] == models[1..][j - 1];
          }
        }
      }
    } else {
      assert models[0] == Matching(models, modelId)[0];
    }
  }

  /** `get_model`: the first configured entry with the requested `id`, or
      404. An entry without `id` makes the comprehension raise. */
  function GetModel(models: seq<ModelEntry>, modelId: string): (r: Result<ModelEntry, HttpError>)
    ensures r.Success? ==> r.value in models && "id" in r.value && r.value["id"] == JString(modelId)
    ensures r == Failure(ModelNotFound) <==>
              (forall i :: 0 <= i < |models| ==> "id" in models[i])
              && (forall m :: m in models ==> m["id"] != JString(modelId))
    ensures r == Failure(InternalError) <==> exists i :: 0 <= i < |models| && "id" !in models[i]
  {
    if exists i :: 0 <= i < |models| && "id" !in models[i] then Failure(InternalError)
    else
      var found := Matching(models, modelId);
      if found == [] then Failure(ModelNotFound) else Success(found[0])
  }

  /** A found entry comes before every other matching entry. */
  lemma GetModelReturnsFirst(models: seq<ModelEntry>, modelId: string)
    requires GetModel(models, modelId).Success?
    ensures exists i :: 0 <= i < |models| && models[i] == GetModel(models, modelId).value
                        && forall j :: 0 <= j < i ==> models[j]["id"] != JString(modelId)
  {
    FirstMatchIsFirst(models, modelId);
  }

  // ---------------------------------------------------------------------
  // chat_completions and completions
  // ---------------------------------------------------------------------

  /** A chat message. */
  datatype Message = Message(role: string, content: string)

  /** How the endpoint hands the response to the client. */
  datatype Delivery = Sync | Streamed

  /** The response dictionary together with the way it is delivered. */
  datatype Reply = Reply(response: map<string, Json>, delivery: Delivery)

  /** The reply for a request without input; the agent is not called. */
  const NoInputResponse: map<string, Json> := map["chatId" := JString("0"), "answer" := JString("No input provided")]

  /** The agent's response with `answer` filled in when it is missing. */
  function WithDefaultAnswer(response: map<string, Json>): (r: map<string, Json>)
    ensures r.Keys == response.Keys + {"answer"}
    ensures forall k :: k in response ==> r[k] == response[k]
    ensures "answer" !in response ==> r["answer"] == JString("No Response received")
  {
    if "answer" in response then response else response["answer" := JString("No Response received")]
  }

  /** Logging `answer[:80]` only works on a string or a list; anything else raises. */
  predicate Sliceable(v: Json)
  {
    v.JString? || v.JArray?
  }

  /** `chat_completions`. `respond` is the agent, run on the messages. */
  method ChatCompletions(
    authorization: Option<string>, whitelist: seq<string>,
    messages: seq<Message>, stream: bool, respond: seq<Message> -> map<string, Json>)
    returns (r: Result<Reply, HttpError>)
    // the key check comes first and its refusal is the answer
    ensures VerifyApiKey(authorization, whitelist).Failure? ==> r == Failure(VerifyApiKey(authorization, whitelist).error)
    // no messages: the fixed reply, synchronously, without calling the agent
    ensures VerifyApiKey(authorization, whitelist).Success? && messages == [] ==> r == Success(Reply(NoInputResponse, Sync))
    // otherwise the agent's response with a default answer, delivered as asked
    ensures VerifyApiKey(authorization, whitelist).Success? && messages != [] ==>
              var response := WithDefaultAnswer(respond(messages));
              r == if Sliceable(response["answer"])
                   then Success(Reply(response, if stream then Streamed else Sync))
                   else Failure(InternalError)
  {
    var key := VerifyApiKey(authorization, whitelist);
    if key.Failure? {
      return Failure(key.error);
    }
    if messages == [] {
      return Success(Reply(NoInputResponse, Sync));
    }
    var response := respond(messages);
    if "answer" !in response {
      response := response["answer" := JString("No Response received")];
    }
    if !Sliceable(response["answer"]) {
      return Failure(InternalError);
    }
    var delivery := if stream then Streamed else Sync;
    return Success(Reply(response, delivery));
  }

  /** `completions`: a missing or empty prompt gets the fixed reply;
      otherwise the agent answers the prompt as a single user message. */
  method Completions(
    authorization: Option<string>, whitelist: seq<string>,
    prompt: Option<string>, stream: bool, respond: seq<Message> -> map<string, Json>)
    returns (r: Result<Reply, HttpError>)
    ensures VerifyApiKey(authorization, whitelist).Failure? ==> r == Failure(VerifyApiKey(authorization, whitelist).error)
    ensures VerifyApiKey(authorization, whitelist).Success? && (prompt.None? || prompt == Some("")) ==>
              r == Success(Reply(NoInputResponse, Sync))
    ensures VerifyApiKey(authorization, whitelist).Success? && prompt.Some? && prompt.value != "" ==>
              var response := WithDefaultAnswer(respond([Message("user", prompt.value)]));
              r == if Sliceable(response["answer"])
                   then Success(Reply(response, if stream then Streamed else Sync))
                   else Failure(InternalError)
  {
    var key := VerifyApiKey(authorization, whitelist);
    if key.Failure? {
      return Failure(key.error);
    }
    if prompt.None? || prompt.value == "" {
      return Success(Reply(NoInputResponse, Sync));
    }
    var response := respond([Message("user", prompt.value)]);
    if "answer" !in response {
      response := response["answer" := JString("No Response received")];
    }
    if !Sliceable(response["answer"]) {
      return Failure(InternalError);
    }
    var delivery := if stream then Streamed else Sync;
    return Success(Reply(response, delivery));
  }
}
