# IoT MQTT agent pipeline and API-key checks, in Dafny

This project models the core of the Fujitsu PrivateGPT IoT MQTT agent. For
each telemetry message, the agent:

- decodes the message into a record;
- persists the record to a rotating JSON stream on the local disk;
- off-loads full stream files to an SFTP server and archives them locally;
- has a chatbot agent phrase the record as a sentence in each configured
  language, retrying without limit;
- appends each sentence to that language's rotating text stream.

It also models the request checks of the OpenAI-compatible API agent: the
bearer-key dependency, the model lookup, and the defaults filled in by the two
completion endpoints.

The modules follow the program's structure:

| file | module | what it holds |
|---|---|---|
| Wrappers.dfy | `Wrappers` | `Option` and `Result` |
| Json.dfy | `JsonData` | JSON values |
| Text.dfy | `Text` | Python's `str.split(sep)`, ASCII digits, `isdigit`/`int`/`f"{i:05}"`, ASCII `lower`/`upper` |
| Paths.dfy | `Paths` | `posixpath.join`, `os.path.basename`, `os.path.splitext`, and the archive name |
| Naming.dfy | `Naming` | stream file names and suffix allocation (`_get_next_suffix`, imperative, with its two loops) |
| Storage.dfy | `Storage` | one stream as a value: new file, upload, archive, rotation, and the two appends, plus what they guarantee |
| FileStore.dfy | `FileStore` | the disk, the SFTP server and `LocalFileHandler` as classes; each method is proved to follow its `Storage` function |
| Dispatch.dfy | `Dispatch` | `generate_logical_sentence`: the retry loop over the chatbot agent's replies |
| Ingest.dfy | `Ingest` | `on_message` and `interpret_and_output`: decoding, per-language parameters, the language loop over all handlers |
| OpenAiApi.dfy | `OpenAiApi` | `verify_api_key`, `get_model`, and the `chat_completions`/`completions` defaults |

The outside world enters as explicit inputs:

- **The SFTP server** is a map from remote directory to the names listed
  there. A `reachable` flag says whether the suffix listing could connect.
  `transferOk` says whether an upload went through.
- **`datetime.now()`** readings are inputs. File timestamps are 14-digit
  `Stamp`s. The record timestamp and its displayed form are strings.
- **`os.path.getsize`** is a function `sizeOf` of the file's content.
- **`json.loads`** is a function parameter `parse`.
- **The chatbot agent** is the sequence of replies it gives, one per post.
  `time.sleep` is counted rather than performed.
- **The agent behind the completion endpoints** is a function `respond`.

The unbounded retry loop is modelled on a finite sequence of replies. If none
of them is acceptable, the outcome is `StillRetrying`. Processing of the
message is then blocked, and nothing after that point happens.

Two behaviours of the code are worth knowing, because a reader might expect
otherwise:

- **A failed new-file allocation ends the stream.** After a successful upload
  and archive, the new file may not be allocatable: the listing connection
  fails, or all 100000 suffixes are taken. The code then sets
  `current_file_path` to None for good, and every later append to that
  stream, record or text, is dropped (`Storage.DeadStreamDropsEverything`,
  `Storage.DeadStreamDropsEveryText`). Nothing in `_check_size_and_rotate`
  retries the allocation at a later size check.
- **Languages are handled one after another.** A chatbot agent that never
  answers for the first language blocks every later language, because the
  language loop calls `generate_logical_sentence` and waits for it before
  moving on; the languages do not run independently of each other.

## Model

| member | source | states |
|---|---|---|
| Text.JoinSplit | agents/OpenAI_Compatible_API_Agent/Python/openai_mcp_api.py:97 | joining the parts of `s.split(sep)` with `sep` gives back `s` |
| Text.Split | agents/IoTAgent/Python/iot_mqtt_agent.py:165 | `s.split(sep)` has at least one part and no part holds the separator |
| Text.SplitJoin | agents/OpenAI_Compatible_API_Agent/Python/openai_mcp_api.py:97 | splitting the join of separator-free parts gives the parts back, so `split` and `join` are inverse both ways |
| Text.SplitAtFirstSep | agents/OpenAI_Compatible_API_Agent/Python/openai_mcp_api.py:97 | `split` cuts at the first separator: `(a + sep + b).split(sep) == [a] + b.split(sep)` for separator-free `a` |
| Text.LastPartAfterSep | agents/IoTAgent/Python/iot_mqtt_agent.py:165 | the last part of a split is the separator-free tail after the last separator |
| Text.PadDigitsValue | agents/IoTAgent/Python/iot_mqtt_agent.py:297 | `int(f"{n:05}") == n` for `n < 100000` |
| Text.DigitsValuePad | agents/IoTAgent/Python/iot_mqtt_agent.py:292 | a 5-digit string is the zero-padded form of its value |
| Paths.Join | agents/IoTAgent/Python/iot_mqtt_agent.py:258 | `os.path.join(dir, name)`: an absolute `name` replaces `dir`; otherwise one `/` is put between them unless `dir` is empty or already ends with one |
| Paths.JoinEndsWithName | agents/IoTAgent/Python/iot_mqtt_agent.py:258 | a joined path ends with the name joined |
| Paths.Basename | agents/IoTAgent/Python/iot_mqtt_agent.py:426 | `os.path.basename` holds no `/` |
| Paths.BasenameOfJoin | agents/IoTAgent/Python/iot_mqtt_agent.py:258 | the base name of `join(dir, name)` is `name` when `name` has no `/` |
| Paths.SplitExt | agents/IoTAgent/Python/iot_mqtt_agent.py:451 | `splitext` cuts the path into root and extension, which concatenate back to the path; the extension is empty or a dot with no further dot or `/` |
| Paths.SplitExtFindsExtension | agents/IoTAgent/Python/iot_mqtt_agent.py:451 | a path ending in `.ext` after a name character splits into that root and `.ext` |
| Paths.ArchiveName | agents/IoTAgent/Python/iot_mqtt_agent.py:450-451 | the archive name is one `_` and the timestamp longer than the path, so it never equals the path |
| Paths.ArchiveNameKeepsExtension | agents/IoTAgent/Python/iot_mqtt_agent.py:450-451 | the archive name is the root, `_`, the timestamp, then the original extension, which it keeps |
| Naming.StreamTag | agents/IoTAgent/Python/iot_mqtt_agent.py:245-248 | the tag is `JSON` for the record stream and the upper-cased language code otherwise |
| Naming.Extension | agents/IoTAgent/Python/iot_mqtt_agent.py:256 | the extension is `json` exactly for the record stream and `txt` for every other stream |
| Naming.FullPrefix | agents/IoTAgent/Python/iot_mqtt_agent.py:249-250 | `{base_filename}-{TAG}-{timestamp}-` |
| Naming.NewFileName | agents/IoTAgent/Python/iot_mqtt_agent.py:257 | `{full_prefix}{counter}.{extension}` |
| Naming.ClaimedSuffix | agents/IoTAgent/Python/iot_mqtt_agent.py:289-293 | a listed name claims a suffix iff it starts with the full prefix and its part before the first `.` is exactly 5 digits; the value is below 100000 |
| Naming.UsedSuffixes | agents/IoTAgent/Python/iot_mqtt_agent.py:288-293 | the suffixes collected from the listing, all of them below 100000 |
| Naming.UsedSuffixesMembers | agents/IoTAgent/Python/iot_mqtt_agent.py:288-293 | a number is used iff some listed name claims it |
| Naming.FirstFree | agents/IoTAgent/Python/iot_mqtt_agent.py:295-297 | the result is unused, in range, and every smaller number from the start is used; None iff all are used |
| Naming.NextSuffix | agents/IoTAgent/Python/iot_mqtt_agent.py:267-304 | a result is 5 digits, unused, and every smaller suffix is used; None iff the server is unreachable or all 100000 suffixes are used |
| Naming.GetNextSuffix | agents/IoTAgent/Python/iot_mqtt_agent.py:267-304 | the two loops compute exactly `NextSuffix` |
| Naming.NameClaimsItsSuffix | agents/IoTAgent/Python/iot_mqtt_agent.py:257 | the name built from suffix `i` claims suffix `i` |
| Naming.NextSuffixIsUnused | agents/IoTAgent/Python/iot_mqtt_agent.py:288-297 | no listed name with the prefix carries the chosen suffix |
| Naming.NewFileNameIsFresh | agents/IoTAgent/Python/iot_mqtt_agent.py:256-258 | the new file name is not in the listing |
| Naming.UploadedSuffixIsNotReused | agents/IoTAgent/Python/iot_mqtt_agent.py:288-297 | after an upload has added a name, the next allocation for that prefix picks a different name |
| Naming.AllSuffixesTaken | agents/IoTAgent/Python/iot_mqtt_agent.py:299-300 | a listing holding all 100000 suffixes yields None |
| Naming.GapIsFilledFirst | agents/IoTAgent/Python/iot_mqtt_agent.py:295-297 | with suffixes 0-42 listed except 7, the allocation is `00007` |
| Naming.FailedListingCountsAsEmpty | agents/IoTAgent/Python/iot_mqtt_agent.py:280-284 | an `IOError` on `chdir`/`listdir` counts as an empty listing, so the result is `00000` |
| Storage.ListingOf | agents/IoTAgent/Python/iot_mqtt_agent.py:276-284 | an unreachable server gives no listing; a directory that cannot be entered or listed counts as listing nothing |
| Storage.NewFilePath | agents/IoTAgent/Python/iot_mqtt_agent.py:238-265 | an unreachable server gives no path; a remote directory that cannot be listed counts as empty, so a path is always allocated then |
| Storage.CreatedFiles | agents/IoTAgent/Python/iot_mqtt_agent.py:259-262 | a new JSON file starts as `[]`; a text file is not created until its first append |
| Storage.NewFilePathShape | agents/IoTAgent/Python/iot_mqtt_agent.py:238-265 | a new path exists only if the server was reachable; it ends in `.json`/`.txt` and its base name is not in the remote directory |
| Storage.Upload | agents/IoTAgent/Python/iot_mqtt_agent.py:394-444 | success iff the transfer goes through and the file exists; then the directory exists, holds the base name and keeps its names, and other directories are untouched; failure changes nothing |
| Storage.UploadAddsOnlyTheName | agents/IoTAgent/Python/iot_mqtt_agent.py:413-431 | a successful upload adds the file's base name to the directory listing, once, and nothing else |
| Storage.Archive | agents/IoTAgent/Python/iot_mqtt_agent.py:447-457 | the file is moved, not deleted: the archive name holds the old content, the old path is gone, and other files are untouched; a missing file changes nothing |
| Storage.Rotate | agents/IoTAgent/Python/iot_mqtt_agent.py:374-391 | an upload is attempted iff the current file exists and its size is at least the limit; archive and new file happen iff the upload succeeded; otherwise the state, including the current path, is unchanged |
| Storage.AppendRecord | agents/IoTAgent/Python/iot_mqtt_agent.py:306-343 | written iff the stream is `json`, has a path and the file exists and holds no non-list JSON; nothing written leaves the state unchanged; the stored list becomes the old list (or `[]` if unreadable) plus the record, and rotation starts from that |
| Storage.AppendText | agents/IoTAgent/Python/iot_mqtt_agent.py:345-372 | written iff the stream is `txt` and has a path; exactly `text + "\n"` is added at the end (a missing file is created), and rotation starts from that |
| Storage.RotationLosesNothing | agents/IoTAgent/Python/iot_mqtt_agent.py:380-388 | after a rotation the uploaded base name is remote, the archive holds the old content, the old path is gone, and the new path differs from the old one, has the extension, and is fresh on the server |
| Storage.NewPathIsNotArchive | agents/IoTAgent/Python/iot_mqtt_agent.py:450-451 | a new file's path never coincides with an archive name |
| Storage.FailedUploadsKeepAppending | agents/IoTAgent/Python/iot_mqtt_agent.py:380-388 | while uploads fail, the stream keeps its file, whatever its size, and every record lands in it in order |
| Storage.FailedUploadsKeepAppendingText | agents/IoTAgent/Python/iot_mqtt_agent.py:362-369 | while uploads fail, every sentence is appended in order as a line of the same file |
| Storage.ThirdRecordCrossesTheLimit | agents/IoTAgent/Python/iot_mqtt_agent.py:383-386 | with a 100-byte limit and 40 bytes per record, the third record triggers an upload; when it fails, the file holds all three records and stays current |
| Storage.DeadStreamDropsEverything | agents/IoTAgent/Python/iot_mqtt_agent.py:318-321 | once the path is None, every later record append is dropped |
| Storage.DeadStreamDropsEveryText | agents/IoTAgent/Python/iot_mqtt_agent.py:356-360 | once the path is None, every later text append is dropped |
| FileStore.UploadFile | agents/IoTAgent/Python/iot_mqtt_agent.py:394-444 | returns and changes the server exactly as `Storage.Upload` |
| FileStore.ArchiveFile | agents/IoTAgent/Python/iot_mqtt_agent.py:447-457 | changes the disk exactly as `Storage.Archive` |
| FileStore.LocalFileHandler.constructor | agents/IoTAgent/Python/iot_mqtt_agent.py:217-236 | stores the configuration and allocates the first file as `Storage.NewFilePath` |
| FileStore.LocalFileHandler.CreateNewFile | agents/IoTAgent/Python/iot_mqtt_agent.py:238-265 | returns `Storage.NewFilePath`; only a JSON stream's file is created, holding `[]` |
| FileStore.LocalFileHandler.CheckSizeAndRotate | agents/IoTAgent/Python/iot_mqtt_agent.py:374-391 | the new disk, server and current path are those of `Storage.Rotate` |
| FileStore.LocalFileHandler.AppendRecord | agents/IoTAgent/Python/iot_mqtt_agent.py:306-343 | the new state and outcome are those of `Storage.AppendRecord` |
| FileStore.LocalFileHandler.AppendText | agents/IoTAgent/Python/iot_mqtt_agent.py:345-372 | the new state and outcome are those of `Storage.AppendText` |
| Dispatch.RequestFor | agents/IoTAgent/Python/iot_mqtt_agent.py:470-500 | one post: the configured URL and key, the FIPA-ACL `request` from `IoT_MQTT_Agent` to `Chatbot_Agent` whose question is the fixed header and the parameters, and a 10-second timeout |
| Dispatch.Acceptable | agents/IoTAgent/Python/iot_mqtt_agent.py:511-536 | a reply ends the loop iff it is a JSON object not marked `"performative": "failure"` whose `answer` is a non-empty string |
| Dispatch.FirstAnswer | agents/IoTAgent/Python/iot_mqtt_agent.py:467-555 | the answer is that of the first acceptable reply, after one sleep per earlier reply, all of them unacceptable; still retrying iff no reply is acceptable |
| Dispatch.GenerateLogicalSentence | agents/IoTAgent/Python/iot_mqtt_agent.py:460-555 | the loop's result is `FirstAnswer`; it posts one identical request per reply looked at and sleeps `wait_seconds` per unusable reply |
| Dispatch.LaterRepliesDoNotMatter | agents/IoTAgent/Python/iot_mqtt_agent.py:534-542 | replies after the accepted one do not change the result |
| Dispatch.FailuresDelayTheAnswer | agents/IoTAgent/Python/iot_mqtt_agent.py:519-531 | each unusable reply in front adds exactly one sleep and changes nothing else |
| Dispatch.TwoFailuresThenAnswer | agents/IoTAgent/Python/iot_mqtt_agent.py:519-542 | two failure messages and then an answer give that answer after two sleeps |
| Ingest.RecordJson | agents/IoTAgent/Python/iot_mqtt_agent.py:173-178 | the stored record: the four keys `timestamp`, `vehicle`, `parameter` and `value` |
| Ingest.ParameterOf | agents/IoTAgent/Python/iot_mqtt_agent.py:165 | the parameter is the topic's base name, and contains no `/` |
| Ingest.ParameterIsLastSegment | agents/IoTAgent/Python/iot_mqtt_agent.py:165 | the parameter of `path/name` is `name` |
| Ingest.UnsplitTopicIsParameter | agents/IoTAgent/Python/iot_mqtt_agent.py:165 | a topic without `/` is its own parameter |
| Ingest.DecodeValue | agents/IoTAgent/Python/iot_mqtt_agent.py:168-171 | a `{` payload that parses is stored as the parse result; otherwise, with no `{` or a failed parse, the raw payload is stored |
| Ingest.Decode | agents/IoTAgent/Python/iot_mqtt_agent.py:164-178 | a record exists iff the payload decodes; it carries the timestamp, the vehicle, the topic's parameter and the decoded value |
| Ingest.ParametersAgree | agents/IoTAgent/Python/iot_mqtt_agent.py:581-594 | `de` and `en` carry the same four facts under their fixed keys |
| Ingest.Parameters | agents/IoTAgent/Python/iot_mqtt_agent.py:581-598 | parameters exist iff the language is `de` or `en` |
| Ingest.LanguagesOf | agents/IoTAgent/Python/iot_mqtt_agent.py:574 | unconfigured languages default to `de` then `en` |
| Ingest.LanguageStep | agents/IoTAgent/Python/iot_mqtt_agent.py:575-627 | a language missing from the translation files or other than `de`/`en` changes nothing and consumes no reply; an answered language appends the first acceptable answer to its `{lang}_txt` stream, when there is one, and leaves the replies after it; an unanswered one waits forever; only that language's text stream can change |
| Ingest.Interpret | agents/IoTAgent/Python/iot_mqtt_agent.py:574-627 | the loop keeps the set of handlers, only consumes replies, and a loop that waits forever has none left |
| Ingest.InterpretKeepsOtherStreams | agents/IoTAgent/Python/iot_mqtt_agent.py:622-627 | the language loop never moves a stream whose key is not a text-handler key, the JSON stream included |
| Ingest.SkippedLanguagesDoNothing | agents/IoTAgent/Python/iot_mqtt_agent.py:575-598 | a loop over skipped languages leaves everything as it was |
| Ingest.UnansweredLoopWritesNothing | agents/IoTAgent/Python/iot_mqtt_agent.py:575-627 | while no reply is acceptable, the language loop writes nothing at all |
| Ingest.InterpretIgnoresLeadingFailures | agents/IoTAgent/Python/iot_mqtt_agent.py:519-531 | unusable replies in front only cost sleeps: for any language list the loop writes exactly what it writes without them |
| Ingest.DefaultOrderIsGermanThenEnglish | agents/IoTAgent/Python/iot_mqtt_agent.py:574-627 | with the default languages and both text handlers present, the first answer is appended to the `de_txt` stream, then the next to the `en_txt` stream, and both replies are consumed |
| Ingest.HandleMessage | agents/IoTAgent/Python/iot_mqtt_agent.py:159-208 | a message is dropped iff its payload does not decode or there is no `json` handler |
| Ingest.RecordIsStoredFirst | agents/IoTAgent/Python/iot_mqtt_agent.py:194-196 | the record is appended to the JSON stream before the language loop, which leaves that stream where the append put it; when the chatbot agent never answers, the stored record is the only change |
| Ingest.ProcessLanguage | agents/IoTAgent/Python/iot_mqtt_agent.py:575-627 | one pass over the handlers does exactly `LanguageStep` |
| Ingest.AppendSentence | agents/IoTAgent/Python/iot_mqtt_agent.py:622-624 | appending a sentence through `{lang}_txt` moves only that handler's stream, as `Storage.AppendText` says |
| Ingest.InterpretAndOutput | agents/IoTAgent/Python/iot_mqtt_agent.py:558-640 | the loop over the handlers does exactly `Interpret` |
| Ingest.OnMessage | agents/IoTAgent/Python/iot_mqtt_agent.py:159-208 | the handlers end as `HandleMessage` says; a dropped message changes nothing |
| OpenAiApi.VerifyApiKey | agents/OpenAI_Compatible_API_Agent/Python/openai_mcp_api.py:91-110 | a missing or empty header gives 401 "Missing Authorization header"; a present header is refused as malformed iff it does not split on spaces into exactly two parts, for its scheme iff the scheme is not `bearer` in some case, and for its key iff a non-empty whitelist does not list it; an accepted token has no space, ends the header, and is listed unless the whitelist is empty |
| OpenAiApi.AcceptedHeaderShape | agents/OpenAI_Compatible_API_Agent/Python/openai_mcp_api.py:97-110 | an accepted header is exactly a `bearer` scheme in some case, one space, and the token |
| OpenAiApi.BearerTokenAccepted | agents/OpenAI_Compatible_API_Agent/Python/openai_mcp_api.py:97-110 | `<Bearer in any case> <token>` yields the token when the whitelist is empty or lists it |
| OpenAiApi.UnlistedTokenRejected | agents/OpenAI_Compatible_API_Agent/Python/openai_mcp_api.py:104-108 | a non-empty whitelist refuses an unlisted token with 401 "API Key not valid" |
| OpenAiApi.OtherSchemeRejected | agents/OpenAI_Compatible_API_Agent/Python/openai_mcp_api.py:98-99 | another scheme gives 401 "Authorization scheme must be 'Bearer'", not the format error |
| OpenAiApi.DoubleSpaceRejected | agents/OpenAI_Compatible_API_Agent/Python/openai_mcp_api.py:97-101 | two spaces make three parts: 401 "Invalid Authorization header format" |
| OpenAiApi.SpaceFreeHeaderRejected | agents/OpenAI_Compatible_API_Agent/Python/openai_mcp_api.py:97-101 | a header without a space, such as a bare `Bearer`, is one part: 401 "Invalid Authorization header format" |
| OpenAiApi.BearerParts | agents/OpenAI_Compatible_API_Agent/Python/openai_mcp_api.py:97 | `scheme + " " + token` splits into exactly those two parts |
| OpenAiApi.Matching | agents/OpenAI_Compatible_API_Agent/Python/openai_mcp_api.py:190 | an entry is kept iff it is in the list and its `id` equals the requested one |
| OpenAiApi.FirstMatchIsFirst | agents/OpenAI_Compatible_API_Agent/Python/openai_mcp_api.py:190-193 | the first kept entry is the first matching entry of the list |
| OpenAiApi.GetModel | agents/OpenAI_Compatible_API_Agent/Python/openai_mcp_api.py:188-193 | a found entry is configured and has the `id`; 404 iff no entry matches; an entry without `id` makes the comprehension raise |
| OpenAiApi.GetModelReturnsFirst | agents/OpenAI_Compatible_API_Agent/Python/openai_mcp_api.py:190-193 | the returned entry comes before every other matching entry |
| OpenAiApi.WithDefaultAnswer | agents/OpenAI_Compatible_API_Agent/Python/openai_mcp_api.py:135-136 | `answer` is added as "No Response received" only when missing; every other key keeps its value |
| OpenAiApi.ChatCompletions | agents/OpenAI_Compatible_API_Agent/Python/openai_mcp_api.py:115-149 | the key check's refusal is the answer; no messages give `{"chatId":"0","answer":"No input provided"}` synchronously without calling the agent; otherwise the agent's response with the default answer is delivered as asked |
| OpenAiApi.Completions | agents/OpenAI_Compatible_API_Agent/Python/openai_mcp_api.py:154-179 | the same for a prompt: a missing or empty prompt gets the fixed reply, and otherwise the agent answers it as one user message |

## Left out

- MQTT client setup, `on_connect`, `main`, Prometheus metrics, logging and
  the message catalogue are plumbing, monitoring and output with no state the
  pipeline depends on. `Ingest.HandleMessage` takes the handler map that
  `main` builds as given.
- The SFTP transport, HTTP posts, the MQTT payload bytes and `time.sleep`
  are replaced by the inputs listed above.
- `Storage.Upload` treats a failed upload as changing nothing. If `put`
  fails after the remote directory was created, the code leaves the new empty
  directory behind, and the model does not.
- Local I/O failures are not modelled: `makedirs`, open, write or move
  raising for reasons other than a missing file. `_create_new_file` raising
  during a rotation would leave the archived path current.
- Rotation does not check whether the archive name already exists, and
  neither does the code. A second archive of the same path within one second
  replaces the first, in the model as with `shutil.move` on a POSIX disk.
- The byte layout of `json.dump` and the exact file sizes are abstracted
  into `sizeOf`. JSON text that a stream file would hold is represented by
  the JSON value itself (`JsonDoc`). Any other content is `Text`, which
  `json.load` is taken to reject.
- `Storage.AppendText` treats a text stream whose file holds a JSON document
  as not written. The code would append the text to it. A text stream's file
  only holds JSON if two streams share a path, which the naming rules
  prevent for distinct tags.
- `Text.Lower`, `Text.Upper` and `Text.IsDigit` are ASCII only. Python's
  `str.lower`, `str.upper` and `str.isdigit` also map and accept non-ASCII
  characters. In particular `Naming.ClaimedSuffix` ignores a listed name
  whose suffix is written in non-ASCII decimal digits (such as full-width
  digits), which the code counts, since `isdigit` accepts them and `int`
  reads them as a number.
- `datetime.now()`, `isoformat()` and the `fromisoformat`/`strftime`
  reformatting of the timestamp are taken as inputs (`now`,
  `shownTimestamp`). The fallback to the raw timestamp on `ValueError` is
  therefore not modelled.
- `record.get(...)` defaults in `interpret_and_output` never apply to records
  built by `on_message`, which always sets all four keys. The
  "no sentence generated" branch is unreachable, since an accepted answer is
  never empty.
- `Dispatch.GenerateLogicalSentence` does not model the unbounded retry
  itself. An answer that never comes is represented by a finite run of
  unusable replies ending in `StillRetrying`.
- The JSON text of the prompt (`json.dumps(parameters, indent=4)`) is kept
  as the parameter map it serialises.
- The log-only truncation of failure reasons and answers is left out,
  except where it raises. `answer[:80]` on a non-string, non-list answer
  gives a 500 (`OpenAiApi.Sliceable`).
- The response builders `_resp_sync`, `_resp_sync_completions` and the
  streaming generators, `PrivateGPTAgent` and the FastAPI routing live in
  `open_ai_helper` and the framework. These are not part of this model. The
  endpoints' result is the response dictionary and whether it is streamed.
- `base_name` is stored by `LocalFileHandler` but never used. It is kept in
  `StreamConfig` only.
