/** `generate_logical_sentence`: the IoT agent posts a FIPA-ACL request to the
    chatbot agent and keeps posting the same request, sleeping a fixed time
    after every unusable reply, until a reply carries an answer. The chatbot
    agent is represented by the sequence of replies it gives, one per post. */
module Dispatch {
  import opened JsonData

  /** The fixed first line of the question sent to the chatbot agent. */
  const PromptHeader := "Create a logical sentence from the following JSON parameters:\n"

  /** The default pause between two attempts, in seconds. */
  const DefaultWaitSeconds: nat := 5

  /** The HTTP timeout of one post, in seconds. */
  const PostTimeoutSeconds: nat := 10

  /** The `chatbot_agent` section of the configuration. */
  datatype ChatbotConfig = ChatbotConfig(apiUrl: string, apiKey: string)

  /** The question: the fixed header followed by the parameters as indented JSON. */
  datatype Prompt = Prompt(header: string, parameters: map<string, Json>)

  datatype AclContent = AclContent(question: Prompt, usePublic: bool, groups: seq<string>, language: string)

  /** The FIPA-ACL message in the body of the post. */
  datatype AclRequest = AclRequest(
    performative: string,
    sender: string,
    receiver: string,
    language: string,
    ontology: string,
    content: AclContent)

  /** One HTTP post: the URL, the `X-API-KEY` header, the JSON body and the timeout. */
  datatype Post = Post(url: string, apiKey: string, body: AclRequest, timeoutSeconds: nat)

  /** The post built for the given parameters and language. */
  function RequestFor(cfg: ChatbotConfig, parameters: map<string, Json>, languageCode: string): Post
  {
    var content := AclContent(Prompt(PromptHeader, parameters), true, [], languageCode);
    Post(cfg.apiUrl, cfg.apiKey,
         AclRequest("request", "IoT_MQTT_Agent", "Chatbot_Agent", "fipa-sl", "fujitsu-iot-ontology", content),
         PostTimeoutSeconds)
  }

  /** What one post brings back: nothing usable (a timeout, a connection
      error, a body that is not JSON, or any other exception), or a JSON body. */
  datatype Attempt = NoReply | Replied(data: Json)

  /** A reply ends the retry loop when it is a JSON object that is not marked
      `"performative": "failure"` and whose `answer` is a non-empty string.
      Any other body either raises (no `get` on a non-object, no `strip` on a
      non-string answer), is a failure, or has an empty or missing answer. */
  predicate Acceptable(a: Attempt)
  {
    && a.Replied? && a.data.JObject?
    && "answer" in a.data.fields && a.data.fields["answer"].JString?
    && a.data.fields["answer"].s != ""
    && !("performative" in a.data.fields && a.data.fields["performative"] == JString("failure"))
  }

  function AnswerOf(a: Attempt): string
    requires Acceptable(a)
  {
    a.data.fields["answer"].s
  }

  /** How dispatching ends on a finite run of replies: with the sentence after
      `sleeps` pauses, or still waiting after a pause for each reply. */
  datatype Outcome = Answered(sentence: string, sleeps: nat) | StillRetrying(sleeps: nat)

  /** The first acceptable reply's answer, after one sleep per earlier reply. */
  function FirstAnswer(replies: seq<Attempt>): (r: Outcome)
    ensures r.Answered? ==>
      && r.sleeps < |replies| && Acceptable(replies[r.sleeps])
      && r.sentence == AnswerOf(replies[r.sleeps])
      && forall j :: 0 <= j < r.sleeps ==> !Acceptable(replies[j])
    ensures r.StillRetrying? ==>
      && r.sleeps == |replies|
      && forall j :: 0 <= j < |replies| ==> !Acceptable(replies[j])
    decreases |replies|
  {
    if replies == [] then StillRetrying(0)
    else if Acceptable(replies[0]) then Answered(AnswerOf(replies[0]), 0)
    else match FirstAnswer(replies[1..])
      case Answered(sentence, k) => Answered(sentence, k + 1)
      case StillRetrying(k) => StillRetrying(k + 1)
  }

  /** `generate_logical_sentence`: posts the same request once per reply until
      one is acceptable, sleeping `waitSeconds` after each one that is not. */
  method GenerateLogicalSentence(
    cfg: ChatbotConfig, parameters: map<string, Json>, languageCode: string,
    replies: seq<Attempt>, waitSeconds: nat)
    returns (outcome: Outcome, posted: seq<Post>, slept: nat)
    ensures outcome == FirstAnswer(replies)
    ensures |posted| == (if outcome.Answered? then outcome.sleeps + 1 else |replies|)
    ensures forall i :: 0 <= i < |posted| ==> posted[i] == RequestFor(cfg, parameters, languageCode)
    ensures slept == outcome.sleeps * waitSeconds
  {
    posted := [];
    slept := 0;
    var i := 0;
    while i < |replies|
      invariant 0 <= i <= |replies|
      invariant |posted| == i
      invariant forall j :: 0 <= j < i ==> posted[j] == RequestFor(cfg, parameters, languageCode)
      invariant forall j :: 0 <= j < i ==> !Acceptable(replies[j])
      invariant slept == i * waitSeconds
    {
      var request := RequestFor(cfg, parameters, languageCode);
      posted := posted + [request];
      var reply := replies[i];
      if Acceptable(reply) {
        return Answered(AnswerOf(reply), i), posted, slept;
      }
      slept := slept + waitSeconds;
      i := i + 1;
    }
    return StillRetrying(|replies|), posted, slept;
  }

  /** Replies after the accepted one are never looked at. */
  lemma {:induction false} LaterRepliesDoNotMatter(replies: seq<Attempt>, later: seq<Attempt>)
    requires FirstAnswer(replies).Answered?
    ensures FirstAnswer(replies + later) == FirstAnswer(replies)
    decreases |replies|
  {
    assert (replies + later)[0] == replies[0];
    if !Acceptable(replies[0]) {
      assert (replies + later)[1..] == replies[1..] + later;
      LaterRepliesDoNotMatter(replies[1..], later);
    }
  }

  /** Each unusable reply in front adds one sleep and changes nothing else. */
  lemma {:induction false} FailuresDelayTheAnswer(failures: seq<Attempt>, replies: seq<Attempt>)
    requires forall j :: 0 <= j < |failures| ==> !Acceptable(failures[j])
    ensures FirstAnswer(failures + replies) == match FirstAnswer(replies)
      case Answered(s, k) => Answered(s, k + |failures|)
      case StillRetrying(k) => StillRetrying(k + |failures|)
    decreases |failures|
  {
    if failures != [] {
      assert (failures + replies)[0] == failures[0];
      assert (failures + replies)[1..] == failures[1..] + replies;
      FailuresDelayTheAnswer(failures[1..], replies);
    } else {
      assert failures + replies == replies;
    }
  }

  /** The chatbot agent's failure message while it cannot reach its backend. */
  const FailureReply := Replied(JObject(map[
    "performative" := JString("failure"),
    "content" := JObject(map["reason" := JString("unreachable")])]))

  /** Two failure messages and then an answer: the answer is returned after
      exactly two sleeps. */
  lemma TwoFailuresThenAnswer()
    ensures var answer := Replied(JObject(map["answer" := JString("Vehicle X reports temperature 21")]));
            FirstAnswer([FailureReply, FailureReply, answer]) == Answered("Vehicle X reports temperature 21", 2)
  {
    var answer := Replied(JObject(map["answer" := JString("Vehicle X reports temperature 21")]));
    assert !Acceptable(FailureReply);
    FailuresDelayTheAnswer([FailureReply, FailureReply], [answer]);
    assert [FailureReply, FailureReply] + [answer] == [FailureReply, FailureReply, answer];
  }
}
