/** What happens to one MQTT message: `on_message` turns it into a record and
    stores the record in the JSON stream, then `interpret_and_output` has the
    chatbot agent phrase it as a sentence in each configured language and
    appends each sentence to that language's text stream. */
module Ingest {
  import opened Wrappers
  import opened Text
  import opened JsonData
  import opened Storage
  import opened FileStore
  import opened Dispatch
  import Paths

  // ---------------------------------------------------------------------
  // Decoding (pure)
  // ---------------------------------------------------------------------

  /** The record built for one message. `timestamp` is `datetime.now().isoformat()`. */
  datatype Record = Record(timestamp: string, vehicle: string, parameter: string, value: Json)

  /** The record as the dictionary stored in the JSON stream. */
  function RecordJson(r: Record): Json
  {
    JObject(map[
      "timestamp" := JString(r.timestamp),
      "vehicle" := JString(r.vehicle),
      "parameter" := JString(r.parameter),
      "value" := r.value])
  }

  /** The parameter name: the topic's last `/`-separated segment, which is
      the topic's base name. */
  function ParameterOf(topic: string): (p: string)
    ensures '/' !in p
  {
    Paths.Basename(topic)
  }

  /** A topic `.../name` names the parameter `name`. */
  lemma ParameterIsLastSegment(path: string, name: string)
    requires '/' !in name
    ensures ParameterOf(path + "/" + name) == name
  {
    LastPartAfterSep(path, '/', name);
  }

  /** A topic without `/` is the parameter name itself. */
  lemma UnsplitTopicIsParameter(topic: string)
    requires '/' !in topic
    ensures ParameterOf(topic) == topic
  {
    SplitWithoutSep(topic, '/');
  }

  /** The record's value: the parsed JSON for a payload starting with `{`
      that `json.loads` (here `parse`) accepts, otherwise the payload itself. */
  function DecodeValue(payload: string, parse: string -> Option<Json>): (v: Json)
    // a JSON value is only ever what the parser returned for a `{` payload
    ensures v == JString(payload) || (StartsWith(payload, "{") && parse(payload) == Some(v))
    // the raw string is kept whenever there is nothing to parse or parsing fails
    ensures !StartsWith(payload, "{") || parse(payload).None? ==> v == JString(payload)
    // a `{` payload that parses is stored as the parsed value
    ensures StartsWith(payload, "{") && parse(payload).Some? ==> v == parse(payload).value
  {
    if StartsWith(payload, "{") then
      match parse(payload)
      case Some(parsed) => parsed
      case None => JString(payload)
    else JString(payload)
  }

  /** The record for a message; a payload that is not valid UTF-8 (None) makes
      `decode` raise, and the message is dropped. */
  function Decode(topic: string, payload: Option<string>, now: string, vehicle: string, parse: string -> Option<Json>)
    : (r: Option<Record>)
    ensures r.Some? <==> payload.Some?
    ensures r.Some? ==> r.value.timestamp == now && r.value.vehicle == vehicle
                        && r.value.parameter == ParameterOf(topic)
                        && r.value.value == DecodeValue(payload.value, parse)
  {
    match payload
    case None => None
    case Some(text) => Some(Record(now, vehicle, ParameterOf(topic), DecodeValue(text, parse)))
  }

  // ---------------------------------------------------------------------
  // Per-language parameters (pure)
  // ---------------------------------------------------------------------

  /** The keys of the parameter map in the languages the agent knows. */
  function ParameterKeys(languageCode: string): Option<seq<string>>
  {
    if languageCode == "de" then Some(["Zeitpunkt", "Fahrzeug", "Parameter", "Wert"])
    else if languageCode == "en" then Some(["Timestamp", "Vehicle", "Parameter", "Value"])
    else None
  }

  /** The parameters sent to the chatbot agent for one language, with the
      displayed timestamp; None for a language other than `de` and `en`. */
  function Parameters(languageCode: string, shownTimestamp: string, r: Record): (p: Option<map<string, Json>>)
    ensures p.Some? <==> languageCode in {"de", "en"}
  {
    match ParameterKeys(languageCode)
    case None => None
    case Some(keys) =>
      Some(map[keys[0] := JString(shownTimestamp), keys[1] := JString(r.vehicle),
               keys[2] := JString(r.parameter), keys[3] := r.value])
  }

  /** Both languages carry the same four facts, each under its own key. */
  lemma ParametersAgree(shownTimestamp: string, r: Record)
    ensures var de := Parameters("de", shownTimestamp, r);
            var en := Parameters("en", shownTimestamp, r);
            && de.Some? && en.Some?
            && |de.value.Keys| == 4 && |en.value.Keys| == 4
            && de.value["Zeitpunkt"] == en.value["Timestamp"] == JString(shownTimestamp)
            && de.value["Fahrzeug"] == en.value["Vehicle"] == JString(r.vehicle)
            && de.value["Parameter"] == en.value["Parameter"] == JString(r.parameter)
            && de.value["Wert"] == en.value["Value"] == r.value
  {
    var de := Parameters("de", shownTimestamp, r).value;
    var en := Parameters("en", shownTimestamp, r).value;
    assert de.Keys == {"Zeitpunkt", "Fahrzeug", "Parameter", "Wert"};
    assert en.Keys == {"Timestamp", "Vehicle", "Parameter", "Value"};
  }

  // ---------------------------------------------------------------------
  // The streams of all handlers, as values
  // ---------------------------------------------------------------------

  /** The local files, the remote directories and each handler's current path. */
  datatype World = World(files: Files, remote: RemoteDirs, paths: map<string, Option<string>>)

  /** Handler key to that handler's configuration. */
  type Configs = map<string, StreamConfig>

  /** The stream state one handler sees. */
  function StreamOf(w: World, key: string): StreamState
    requires key in w.paths
  {
    StreamState(w.files, w.remote, w.paths[key])
  }

  /** The world after one handler's operation produced `s`. */
  function Replace(w: World, key: string, s: StreamState): (r: World)
    requires key in w.paths
    ensures r.paths.Keys == w.paths.Keys
    ensures forall k :: k in w.paths && k != key ==> r.paths[k] == w.paths[k]
  {
    World(s.files, s.remote, w.paths[key := s.current])
  }

  /** The configured languages, `["de", "en"]` when none are configured. */
  function LanguagesOf(configured: Option<seq<string>>): (langs: seq<string>)
    ensures configured.None? ==> langs == ["de", "en"]
    ensures configured.Some? ==> langs == configured.value
  {
    if configured.None? then ["de", "en"] else configured.value
  }

  /** The key of a language's text handler. */
  function TextHandlerKey(languageCode: string): string
  {
    languageCode + "_txt"
  }

  /** Where processing of a message stands: the world, the chatbot replies not
      yet consumed, and whether dispatch is still retrying (and so every later
      step is still waiting). */
  datatype Progress = Progress(world: World, replies: seq<Attempt>, blocked: bool)

  /** One iteration of the language loop of `interpret_and_output`. */
  function LanguageStep(
    cfgs: Configs, sizeOf: FileBody -> nat, w: World, languageCode: string, translated: set<string>,
    r: Record, shownTimestamp: string, replies: seq<Attempt>, cond: Conditions): (p: Progress)
    requires w.paths.Keys == cfgs.Keys
    ensures p.world.paths.Keys == w.paths.Keys
    // a skipped language neither asks the chatbot agent nor writes anything
    ensures languageCode !in translated || languageCode !in {"de", "en"} ==> p == Progress(w, replies, false)
    // only that language's text stream can change
    ensures forall k :: k in w.paths && k != TextHandlerKey(languageCode) ==> p.world.paths[k] == w.paths[k]
    // an answered language appends the first acceptable answer to its text
    // stream, when there is one, and leaves the replies after that answer
    ensures languageCode in translated && languageCode in {"de", "en"} && FirstAnswer(replies).Answered? ==>
      var key := TextHandlerKey(languageCode);
      var answer := FirstAnswer(replies);
      p == Progress(if key in cfgs
                    then Replace(w, key, Storage.AppendText(cfgs[key], sizeOf, StreamOf(w, key), answer.sentence, cond).0)
                    else w,
                    replies[answer.sleeps + 1..], false)
    // a language that needs a sentence and gets no acceptable reply waits forever
    ensures languageCode in translated && languageCode in {"de", "en"} && FirstAnswer(replies).StillRetrying? ==>
      p == Progress(w, [], true)
  {
    if languageCode !in translated then Progress(w, replies, false)
    else match Parameters(languageCode, shownTimestamp, r)
      case None => Progress(w, replies, false)
      case Some(_) =>
        match FirstAnswer(replies)
        case StillRetrying(_) => Progress(w, [], true)
        case Answered(sentence, k) =>
          var key := TextHandlerKey(languageCode);
          var w' := if key in cfgs
                    then Replace(w, key, Storage.AppendText(cfgs[key], sizeOf, StreamOf(w, key), sentence, cond).0)
                    else w;
          Progress(w', replies[k + 1..], false)
  }

  /** The language loop of `interpret_and_output` from some point on. */
  function Interpret(
    cfgs: Configs, sizeOf: FileBody -> nat, w: World, langs: seq<string>, translated: set<string>,
    r: Record, shownTimestamp: string, replies: seq<Attempt>, conds: seq<Conditions>): (p: Progress)
    requires w.paths.Keys == cfgs.Keys && |conds| == |langs|
    ensures p.world.paths.Keys == w.paths.Keys
    // replies are only consumed, never invented; a loop that waits forever has none left
    ensures |p.replies| <= |replies|
    ensures p.blocked ==> p.replies == []
    decreases |langs|
  {
    if langs == [] then Progress(w, replies, false)
    else
      var p := LanguageStep(cfgs, sizeOf, w, langs[0], translated, r, shownTimestamp, replies, conds[0]);
      if p.blocked then p
      else Interpret(cfgs, sizeOf, p.world, langs[1..], translated, r, shownTimestamp, p.replies, conds[1..])
  }

  /** The language loop never moves a stream that is not a text stream, in
      particular not the JSON stream. */
  lemma {:induction false} InterpretKeepsOtherStreams(
    cfgs: Configs, sizeOf: FileBody -> nat, w: World, langs: seq<string>, translated: set<string>,
    r: Record, shownTimestamp: string, replies: seq<Attempt>, conds: seq<Conditions>, key: string)
    requires w.paths.Keys == cfgs.Keys && |conds| == |langs|
    requires key in w.paths && !EndsWith(key, "_txt")
    ensures var p := Interpret(cfgs, sizeOf, w, langs, translated, r, shownTimestamp, replies, conds);
            key in p.world.paths && p.world.paths[key] == w.paths[key]
    decreases |langs|
  {
    if langs != [] {
      assert key != TextHandlerKey(langs[0]) by {
        assert EndsWith(TextHandlerKey(langs[0]), "_txt");
      }
      var p := LanguageStep(cfgs, sizeOf, w, langs[0], translated, r, shownTimestamp, replies, conds[0]);
      if !p.blocked {
        InterpretKeepsOtherStreams(cfgs, sizeOf, p.world, langs[1..], translated, r, shownTimestamp, p.replies, conds[1..], key);
      }
    }
  }

  /** Languages that are skipped leave everything as it was: no request is
      made and no reply consumed. */
  lemma {:induction false} SkippedLanguagesDoNothing(
    cfgs: Configs, sizeOf: FileBody -> nat, w: World, langs: seq<string>, translated: set<string>,
    r: Record, shownTimestamp: string, replies: seq<Attempt>, conds: seq<Conditions>)
    requires w.paths.Keys == cfgs.Keys && |conds| == |langs|
    requires forall i :: 0 <= i < |langs| ==> langs[i] !in translated || langs[i] !in {"de", "en"}
    ensures Interpret(cfgs, sizeOf, w, langs, translated, r, shownTimestamp, replies, conds) == Progress(w, replies, false)
    decreases |langs|
  {
    if langs != [] {
      SkippedLanguagesDoNothing(cfgs, sizeOf, w, langs[1..], translated, r, shownTimestamp, replies, conds[1..]);
    }
  }

  /** While the chatbot agent gives no acceptable reply, the language loop
      writes nothing: skipped languages change nothing and the first language
      that needs a sentence waits forever. */
  lemma {:induction false} UnansweredLoopWritesNothing(
    cfgs: Configs, sizeOf: FileBody -> nat, w: World, langs: seq<string>, translated: set<string>,
    r: Record, shownTimestamp: string, replies: seq<Attempt>, conds: seq<Conditions>)
    requires w.paths.Keys == cfgs.Keys && |conds| == |langs|
    requires FirstAnswer(replies).StillRetrying?
    ensures Interpret(cfgs, sizeOf, w, langs, translated, r, shownTimestamp, replies, conds).world == w
    decreases |langs|
  {
    if langs != [] {
      var p := LanguageStep(cfgs, sizeOf, w, langs[0], translated, r, shownTimestamp, replies, conds[0]);
      if !p.blocked {
        assert p == Progress(w, replies, false);
        UnansweredLoopWritesNothing(cfgs, sizeOf, w, langs[1..], translated, r, shownTimestamp, replies, conds[1..]);
      }
    }
  }

  /** Unusable replies in front of the chatbot agent's replies only cost
      sleeps: the language loop writes exactly what it writes without them. */
  lemma {:induction false} InterpretIgnoresLeadingFailures(
    cfgs: Configs, sizeOf: FileBody -> nat, w: World, langs: seq<string>, translated: set<string>,
    r: Record, shownTimestamp: string, failures: seq<Attempt>, replies: seq<Attempt>, conds: seq<Conditions>)
    requires w.paths.Keys == cfgs.Keys && |conds| == |langs|
    requires forall j :: 0 <= j < |failures| ==> !Acceptable(failures[j])
    ensures Interpret(cfgs, sizeOf, w, langs, translated, r, shownTimestamp, failures + replies, conds).world
            == Interpret(cfgs, sizeOf, w, langs, translated, r, shownTimestamp, replies, conds).world
    decreases |langs|
  {
    if langs != [] {
      var all := failures + replies;
      var p := LanguageStep(cfgs, sizeOf, w, langs[0], translated, r, shownTimestamp, all, conds[0]);
      var q := LanguageStep(cfgs, sizeOf, w, langs[0], translated, r, shownTimestamp, replies, conds[0]);
      FailuresDelayTheAnswer(failures, replies);
      if langs[0] in translated && langs[0] in {"de", "en"} {
        if FirstAnswer(replies).Answered? {
          var k := FirstAnswer(replies).sleeps;
          assert all[k + |failures| + 1..] == replies[k + 1..];
          assert p == q;
        }
      }
      assert p.world == q.world && p.blocked == q.blocked;
      if !p.blocked && p.replies != q.replies {
        // only a skipped language keeps the leading failures in front
        assert p.replies == failures + q.replies;
        InterpretIgnoresLeadingFailures(cfgs, sizeOf, p.world, langs[1..], translated, r, shownTimestamp,
                                        failures, q.replies, conds[1..]);
      }
    }
  }

  /** The default configuration asks for German first and English second:
      the first acceptable reply is appended to the `de_txt` stream, then the
      next one to the `en_txt` stream, and both replies are used up. */
  lemma {:induction false} DefaultOrderIsGermanThenEnglish(
    cfgs: Configs, sizeOf: FileBody -> nat, w: World, r: Record, shownTimestamp: string,
    german: Attempt, english: Attempt, conds: seq<Conditions>)
    requires w.paths.Keys == cfgs.Keys && |conds| == 2
    requires Acceptable(german) && Acceptable(english)
    requires "de_txt" in cfgs && "en_txt" in cfgs
    ensures var w1 := Replace(w, "de_txt", Storage.AppendText(cfgs["de_txt"], sizeOf, StreamOf(w, "de_txt"),
                                                              AnswerOf(german), conds[0]).0);
            var w2 := Replace(w1, "en_txt", Storage.AppendText(cfgs["en_txt"], sizeOf, StreamOf(w1, "en_txt"),
                                                               AnswerOf(english), conds[1]).0);
            Interpret(cfgs, sizeOf, w, LanguagesOf(None), {"de", "en"}, r, shownTimestamp, [german, english], conds)
            == Progress(w2, [], false)
  {
    var replies := [german, english];
    assert FirstAnswer(replies) == Answered(AnswerOf(german), 0);
    assert replies[1..] == [english];
    assert FirstAnswer([english]) == Answered(AnswerOf(english), 0);
    assert TextHandlerKey("de") == "de_txt" && TextHandlerKey("en") == "en_txt";
    assert Parameters("de", shownTimestamp, r).Some? && Parameters("en", shownTimestamp, r).Some?;
    var w1 := Replace(w, "de_txt", Storage.AppendText(cfgs["de_txt"], sizeOf, StreamOf(w, "de_txt"),
                                                      AnswerOf(german), conds[0]).0);
    var p := LanguageStep(cfgs, sizeOf, w, "de", {"de", "en"}, r, shownTimestamp, replies, conds[0]);
    assert p == Progress(w1, [english], false);
    var q := LanguageStep(cfgs, sizeOf, w1, "en", {"de", "en"}, r, shownTimestamp, [english], conds[1]);
    assert [english][1..] == [];
    assert LanguagesOf(None)[1..] == ["en"];
  }

  /** The whole of `on_message`, as a function: decode, append the record to
      the `json` stream, then run the language loop. A message is dropped
      when its payload cannot be decoded or there is no `json` handler. */
  datatype MessageOutcome = Dropped | Processed(progress: Progress)

  function HandleMessage(
    cfgs: Configs, sizeOf: FileBody -> nat, w: World,
    topic: string, payload: Option<string>, now: string, vehicle: string, parse: string -> Option<Json>,
    shownTimestamp: string, langs: seq<string>, translated: set<string>,
    replies: seq<Attempt>, recordCond: Conditions, conds: seq<Conditions>): (m: MessageOutcome)
    requires w.paths.Keys == cfgs.Keys && |conds| == |langs|
    ensures m.Dropped? <==> payload.None? || "json" !in cfgs
  {
    match Decode(topic, payload, now, vehicle, parse)
    case None => Dropped
    case Some(r) =>
      if "json" !in cfgs then Dropped
      else
        var stored := Storage.AppendRecord(cfgs["json"], sizeOf, StreamOf(w, "json"), RecordJson(r), recordCond).0;
        var w1 := Replace(w, "json", stored);
        Processed(Interpret(cfgs, sizeOf, w1, langs, translated, r, shownTimestamp, replies, conds))
  }

  /** The record is stored first: whatever the language loop does, the JSON
      stream ends up on the path the record append left it on, and when the
      chatbot agent never answers, the stored record is the only change, so
      it can be recovered from the JSON stream. */
  lemma RecordIsStoredFirst(
    cfgs: Configs, sizeOf: FileBody -> nat, w: World,
    topic: string, payload: string, now: string, vehicle: string, parse: string -> Option<Json>,
    shownTimestamp: string, langs: seq<string>, translated: set<string>,
    replies: seq<Attempt>, recordCond: Conditions, conds: seq<Conditions>)
    requires w.paths.Keys == cfgs.Keys && |conds| == |langs| && "json" in cfgs
    ensures var r := Decode(topic, Some(payload), now, vehicle, parse).value;
            var stored := Storage.AppendRecord(cfgs["json"], sizeOf, StreamOf(w, "json"), RecordJson(r), recordCond).0;
            var m := HandleMessage(cfgs, sizeOf, w, topic, Some(payload), now, vehicle, parse,
                                   shownTimestamp, langs, translated, replies, recordCond, conds);
            && m.Processed?
            && "json" in m.progress.world.paths
            && m.progress.world.paths["json"] == stored.current
            && (FirstAnswer(replies).StillRetrying? ==>
                  m.progress.world == Replace(w, "json", stored) && m.progress.world.files == stored.files)
  {
    var r := Decode(topic, Some(payload), now, vehicle, parse).value;
    var stored := Storage.AppendRecord(cfgs["json"], sizeOf, StreamOf(w, "json"), RecordJson(r), recordCond).0;
    var w1 := Replace(w, "json", stored);
    assert !EndsWith("json", "_txt");
    InterpretKeepsOtherStreams(cfgs, sizeOf, w1, langs, translated, r, shownTimestamp, replies, conds, "json");
    if FirstAnswer(replies).StillRetrying? {
      UnansweredLoopWritesNothing(cfgs, sizeOf, w1, langs, translated, r, shownTimestamp, replies, conds);
    }
  }

  // ---------------------------------------------------------------------
  // The handlers as objects
  // ---------------------------------------------------------------------

  /** The handlers `main` creates are distinct objects sharing one disk and one server. */
  predicate SharedStorage(handlers: map<string, LocalFileHandler>, disk: Disk, server: SftpServer)
  {
    && (forall k :: k in handlers ==> handlers[k].disk == disk && handlers[k].server == server)
    && (forall k, l :: k in handlers && l in handlers && k != l ==> handlers[k] != handlers[l])
  }

  function Handlers(handlers: map<string, LocalFileHandler>): set<LocalFileHandler>
  {
    set k | k in handlers :: handlers[k]
  }

  function ConfigsOf(handlers: map<string, LocalFileHandler>): (cfgs: Configs)
    ensures cfgs.Keys == handlers.Keys
  {
    map k | k in handlers :: handlers[k].cfg
  }

  /** The world the handlers, the disk and the server make up. */
  function WorldOf(handlers: map<string, LocalFileHandler>, disk: Disk, server: SftpServer): (w: World)
    reads disk, server, Handlers(handlers)
    ensures w.paths.Keys == handlers.Keys
  {
    World(disk.files, server.dirs, map k | k in handlers :: handlers[k].currentFilePath)
  }

  /** One pass of the language loop of `interpret_and_output`. */
  method ProcessLanguage(
    handlers: map<string, LocalFileHandler>, disk: Disk, server: SftpServer, chatbot: ChatbotConfig,
    r: Record, shownTimestamp: string, languageCode: string, translated: set<string>,
    replies: seq<Attempt>, cond: Conditions)
    returns (rest: seq<Attempt>, blocked: bool)
    requires SharedStorage(handlers, disk, server)
    modifies disk, server, Handlers(handlers)
    ensures Progress(WorldOf(handlers, disk, server), rest, blocked)
            == LanguageStep(ConfigsOf(handlers), disk.sizeOf, old(WorldOf(handlers, disk, server)),
                            languageCode, translated, r, shownTimestamp, replies, cond)
  {
    rest, blocked := replies, false;
    if languageCode !in translated {
      return;
    }
    var parameters := Parameters(languageCode, shownTimestamp, r);
    if parameters.None? {
      return;
    }
    var outcome, _, _ := GenerateLogicalSentence(chatbot, parameters.value, languageCode, replies, DefaultWaitSeconds);
    if outcome.StillRetrying? {
      return [], true;
    }
    rest := replies[outcome.sleeps + 1..];
    var key := TextHandlerKey(languageCode);
    if key in handlers {
      AppendSentence(handlers, disk, server, key, outcome.sentence, cond);
    }
  }

  /** `local_handlers[key].append_text(sentence)`, seen from all the handlers:
      only that handler's stream moves. */
  method AppendSentence(
    handlers: map<string, LocalFileHandler>, disk: Disk, server: SftpServer,
    key: string, sentence: string, cond: Conditions)
    requires SharedStorage(handlers, disk, server) && key in handlers
    modifies disk, server, Handlers(handlers)
    ensures WorldOf(handlers, disk, server)
            == Replace(old(WorldOf(handlers, disk, server)), key,
                       Storage.AppendText(handlers[key].cfg, disk.sizeOf,
                                          StreamOf(old(WorldOf(handlers, disk, server)), key), sentence, cond).0)
  {
    var handler := handlers[key];
    ghost var before := WorldOf(handlers, disk, server);
    assert handler.State() == StreamOf(before, key);
    var _ := handler.AppendText(sentence, cond);
    assert forall k :: k in handlers && k != key ==> handlers[k] != handler;
  }

  /** `interpret_and_output`: for each configured language in order, skip it
      when it has no translation file or is neither `de` nor `en`; otherwise
      obtain a sentence from the chatbot agent and append it to the
      language's text handler, when there is one. If the chatbot agent never
      answers, the loop waits forever and nothing after it happens. */
  method InterpretAndOutput(
    handlers: map<string, LocalFileHandler>, disk: Disk, server: SftpServer, chatbot: ChatbotConfig,
    r: Record, shownTimestamp: string, languages: Option<seq<string>>, translated: set<string>,
    replies: seq<Attempt>, conds: seq<Conditions>)
    returns (rest: seq<Attempt>, blocked: bool)
    requires SharedStorage(handlers, disk, server)
    requires |conds| == |LanguagesOf(languages)|
    modifies disk, server, Handlers(handlers)
    ensures Progress(WorldOf(handlers, disk, server), rest, blocked)
            == Interpret(ConfigsOf(handlers), disk.sizeOf, old(WorldOf(handlers, disk, server)),
                         LanguagesOf(languages), translated, r, shownTimestamp, replies, conds)
  {
    var langs := LanguagesOf(languages);
    ghost var cfgs := ConfigsOf(handlers);
    rest := replies;
    blocked := false;
    var i := 0;
    while i < |langs|
      invariant 0 <= i <= |langs|
      invariant Interpret(cfgs, disk.sizeOf, WorldOf(handlers, disk, server), langs[i..], translated, r, shownTimestamp, rest, conds[i..])
                == Interpret(cfgs, disk.sizeOf, old(WorldOf(handlers, disk, server)), langs, translated, r, shownTimestamp, replies, conds)
    {
      assert langs[i..][1..] == langs[i + 1..] && conds[i..][1..] == conds[i + 1..];
      rest, blocked := ProcessLanguage(handlers, disk, server, chatbot, r, shownTimestamp, langs[i], translated, rest, conds[i]);
      if blocked {
        return;
      }
      i := i + 1;
    }
    assert langs[i..] == [];
  }

  /** `on_message`: decodes the message, appends the record to the `json`
      handler and then runs `interpret_and_output`. Exceptions end the
      handling of the message, so an undecodable payload or a missing `json`
      handler drops it before anything is written. */
  method OnMessage(
    handlers: map<string, LocalFileHandler>, disk: Disk, server: SftpServer, chatbot: ChatbotConfig,
    topic: string, payload: Option<string>, now: string, vehicle: string, parse: string -> Option<Json>,
    shownTimestamp: string, languages: Option<seq<string>>, translated: set<string>,
    replies: seq<Attempt>, recordCond: Conditions, conds: seq<Conditions>)
    returns (outcome: MessageOutcome)
    requires SharedStorage(handlers, disk, server)
    requires |conds| == |LanguagesOf(languages)|
    modifies disk, server, Handlers(handlers)
    ensures var m := HandleMessage(ConfigsOf(handlers), disk.sizeOf, old(WorldOf(handlers, disk, server)),
                                   topic, payload, now, vehicle, parse, shownTimestamp,
                                   LanguagesOf(languages), translated, replies, recordCond, conds);
            outcome == m && (m.Processed? ==> m.progress.world == WorldOf(handlers, disk, server))
    ensures outcome.Dropped? ==> unchanged(disk, server, Handlers(handlers))
  {
    var record := Decode(topic, payload, now, vehicle, parse);
    if record.None? || "json" !in handlers {
      return Dropped;
    }
    var jsonHandler := handlers["json"];
    var _ := jsonHandler.AppendRecord(RecordJson(record.value), recordCond);
    assert WorldOf(handlers, disk, server)
           == Replace(old(WorldOf(handlers, disk, server)), "json",
                      Storage.AppendRecord(ConfigsOf(handlers)["json"], disk.sizeOf,
                                           StreamOf(old(WorldOf(handlers, disk, server)), "json"),
                                           RecordJson(record.value), recordCond).0);
    var rest, blocked := InterpretAndOutput(handlers, disk, server, chatbot, record.value, shownTimestamp,
                                            languages, translated, replies, conds);
    return Processed(Progress(WorldOf(handlers, disk, server), rest, blocked));
  }
}
