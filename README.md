# Job-posting dialogue backend — a Dafny model

This project models the coordination core of a backend that interviews a user about a job
posting through a language model. The backend collects the posting as a validated JSON object
and streams each assistant reply to the browser over server-sent events. Five pieces are modelled:

- **Reply extraction and the schema check** (`Extraction`, `Schema`). `extract_json` is a
  two-index "first `{` to last `}`" slice. `is_potential_json_object` strips the text and
  checks its first and last characters. The pydantic models `StackDetail` and
  `JobPostingOutput` become a validator over an abstract JSON value (`JsonValues.Json`).
- **The dialogue engine** (`Agents`). It is a class `Agent` with the transcript `messages` and
  the collected posting. `process_user_response` and `shot` are methods proved against the
  specification functions `Process` and `ShotSpec`. `get_initial_greeting` is proved against
  `GreetReply` and `GreetMessages`. `load_messages` is a method that states its result directly,
  and `history` is a function on the transcript.
- **The delivery registry** (`MessageQueue`). `MessageQueueMediator` maps a session id to a queue
  object (`Channel`). `get` and `put` are proved against pure functions on
  `map<string, seq<string>>`.
- **The chat endpoints** (`ChatRouter`). They cover `create`, `user_message`, the `sse`
  subscription that replaces any earlier queue, and the `event_generator` loop that stops at the
  sentinel `"FINISHED"` and deletes the session's registry entry.
- **The orchestrator and persistence** (`Orchestration`, `Repositories`, `Actions`).
  - `dispatch_query` and `dispatch_greetings` are sequential methods over two in-memory tables
    and the registry.
  - `Repository` holds `read_by_id`, `read`, `create`, `update` and `delete` over a map from id to
    record. `read_by_session_id` is also there.
  - `UpsertCompany.upsert` and `UpdateChatSession.update` are proved against specification
    functions on the table.

Collaborators the model cannot see are parameters:

- The language-model call is a function `complete: Json -> Completion`. A completion is a reply
  text (possibly empty), an API error, or any other failure.
- `json.loads` and `json.dumps` are a pair of functions, `Codec(parse, dump)`.
- Fresh primary keys are supplied by the caller, as is the clock reading `now`.

Behaviour of the code that a reader might expect to be otherwise, modelled as the code has it:

- Unsubscribing is not idempotent. `del MessageQueueMediator().mq[session_id]` raises `KeyError`
  when the key is gone (`ChatRouter.StreamEnd.KeyErrorRaised`, `ChatRouter.Disconnect`).
- `del` removes whatever queue is registered now. So an older stream's disconnect unregisters
  a newer stream (`ChatRouter.ReconnectScenario`).
- An unknown session in `user_message` is not refused. The acknowledgment is returned at once,
  and the scheduled turn aborts at its read.
- A stored transcript that is NULL, not JSON, or not a list makes `shot` raise. It is not turned
  into an error reply.
- Blank input skips the model, but the turn is still recorded. `shot` appends the fixed prompt
  as an assistant entry, and `dispatch_query` stores that transcript, so the session's
  transcript changes with no user entry (`Orchestration.TurnOnListTranscript`).
- The greeting is published even when it is an error text. The stored transcript is then the
  system entry alone.
- The source holds no per-session lock, and each dispatch is modelled as one atomic step.
- The extraction check is applied to the extracted slice, not to the whole reply.

## Model

| member | source | states |
|---|---|---|
| `Extraction.ExtractJson` | src/agents/agent_1.py:290-298 | The two scanning loops return exactly `BraceSlice(text)`: empty, or a slice of length at least 2 that begins with `{` and ends with `}` |
| `Extraction.BraceSlice` | src/agents/agent_1.py:290-298 | The result is empty or a brace-delimited slice of length at least 2 |
| `Extraction.BraceSliceSpan` | src/agents/agent_1.py:292-297 | A non-empty result runs from the first `{` in the text to the last `}`, which lies after it |
| `Extraction.BraceSliceEmptyIff` | src/agents/agent_1.py:291-298 | The result is empty exactly when no `}` follows a `{`: for empty text, for text without `{`, or without a later `}` |
| `Extraction.BraceSliceIdempotent` | src/agents/agent_1.py:290-298 | Extracting from an extracted slice returns it unchanged |
| `Extraction.BraceSliceIsPotentialObject` | src/agents/agent_1.py:284-298 | The delimiter check holds of an extracted slice exactly when it is non-empty, so it fails for `""` |
| `Extraction.TrimStart` | src/agents/agent_1.py:286 | Drops exactly the leading whitespace: the result is a suffix, everything dropped is whitespace, and it starts with a non-space character or is empty |
| `Extraction.TrimEnd` | src/agents/agent_1.py:286 | Drops exactly the trailing whitespace: the result is a prefix, everything dropped is whitespace, and it ends with a non-space character or is empty |
| `Extraction.Strip` | src/agents/agent_1.py:286 | `str.strip()`: what remains has no whitespace at either end |
| `Extraction.StripEmptyIff` | src/agents/agent_1.py:286 | Stripping leaves nothing exactly when the text is all whitespace, which is what makes an input blank |
| `Extraction.StripAt` | src/agents/agent_1.py:286 | Stripping keeps exactly the span from the first to the last non-space character |
| `Extraction.StripKeeps` | src/agents/agent_1.py:286 | Text that is not whitespace at either end is left unchanged by stripping |
| `Extraction.TrimStartAt` | src/agents/agent_1.py:286 | The left strip ends at the first non-space character |
| `Extraction.TrimEndAt` | src/agents/agent_1.py:286 | The right strip ends after the last non-space character |
| `Extraction.PotentialJsonObjectDelimited` | src/agents/agent_1.py:284-287 | When `is_potential_json_object` holds, it names the `{` and `}` that carry it, with only whitespace outside them |
| `Extraction.IsPotentialJsonObject` | src/agents/agent_1.py:284-287 | Passes only when the stripped text has at least two characters, so a lone `{` fails. `PotentialJsonObjectIff` states exactly which texts pass |
| `Extraction.DelimitedIsPotentialJsonObject` | src/agents/agent_1.py:284-287 | A `{` and a later `}` with only whitespace outside them pass `is_potential_json_object` |
| `Extraction.PotentialJsonObjectIff` | src/agents/agent_1.py:284-287 | `is_potential_json_object` holds exactly when the text is a `{`, later a `}`, with whitespace only around them |
| `Schema.StringViolations` | src/agents/agent_1.py:32-53 | A required string field yields no violation exactly when it is present and a string |
| `Schema.StringItemViolations` | src/agents/agent_1.py:40-43 | A list yields no item violation exactly when every item is a string |
| `Schema.StringListViolations` | src/agents/agent_1.py:40-43 | `deep_requirements` is clean exactly when it is absent (default empty) or a list of strings |
| `Schema.StackDetailViolations` | src/agents/agent_1.py:32-43 | A requirement entry is clean exactly when it is an object with string `stack_field` and `stack_name` and valid `deep_requirements` |
| `Schema.RequirementItemViolations` | src/agents/agent_1.py:50-53 | The requirement list is clean exactly when every entry is a valid `StackDetail` |
| `Schema.JobPostingViolations` | src/agents/agent_1.py:46-53 | An object is clean exactly when it is a valid `JobPostingOutput` |
| `Schema.StringsOf` | src/agents/agent_1.py:40-43 | The validated list of strings has the list's length and its items in order |
| `Schema.BuildRequirements` | src/agents/agent_1.py:50-53 | The validated requirements have one `StackDetail` per list item, built from that item, in order |
| `Schema.Validate` | src/agents/agent_1.py:32-53 | Succeeds exactly when the three required strings are there, `requirements` is absent or a list of valid entries, and every `deep_requirements` is absent or a list of strings. The model carries the JSON's three strings and one `StackDetail` per requirements entry, in order, built from those entries. A non-object is refused as such, and any other refusal lists at least one violation |
| `Schema.ToJson` | src/agents/agent_1.py:189-191 | `model_dump_json` emits exactly the four fields, defaults included: the three strings as JSON strings, and `requirements` as the list with one dumped entry per `StackDetail`, in order. `ValidateRoundTrip` states that validating the dump gives the model back |
| `Schema.StringsToJson` | src/agents/agent_1.py:40-43 | Dumping a list of strings gives one JSON string per item, in order |
| `Schema.RequirementsToJson` | src/agents/agent_1.py:50-53 | Dumping requirements gives one JSON object per entry, in order |
| `Schema.StringsRoundTrip` | src/agents/agent_1.py:40-43 | Validating a dumped string list gives it back |
| `Schema.RequirementsRoundTrip` | src/agents/agent_1.py:32-53 | Validating dumped requirements gives them back |
| `Schema.ValidateRoundTrip` | src/agents/agent_1.py:32-53 | Validating the dump of any posting gives that posting back |
| `Schema.MissingFieldReported` | src/agents/agent_1.py:46-49 | A missing `company_name`, `company_industry` or `job_position` is refused, with a `Missing` violation under that field's name |
| `Schema.NonStringFieldReported` | src/agents/agent_1.py:46-49 | A required field holding a non-string is refused with a `StringType` violation under its name |
| `Schema.OptionalRequirements` | src/agents/agent_1.py:50-53 | An object without `requirements` validates with the empty list |
| `Schema.OptionalDeepRequirements` | src/agents/agent_1.py:40-43 | An entry without `deep_requirements` validates with the empty list |
| `Schema.AcmeExample` | src/agents/agent_1.py:46-53 | The complete Acme object with `"requirements": []` validates and keeps the empty list |
| `Agents.ErrorRepliesMarked` | src/agents/agent_1.py:164-170 | Every error reply the agent can give starts with `"Error: "` |
| `Agents.TurnReply` | src/agents/agent_1.py:225-281 | The turn's reply is never empty. It is the model's text when that is non-empty, and an error-prefixed string otherwise |
| `Agents.Harvest` | src/agents/agent_1.py:229-274 | The posting changes only to a new one, taken from an extract that passes the delimiter check, parses, and validates to that posting |
| `Agents.Process` | src/agents/agent_1.py:209-281 | Blank input gives the fixed prompt and leaves the state alone. The turn fails exactly for non-blank input on a transcript that is not a list, and then changes nothing. Otherwise the transcript gains the user entry, the reply is `TurnReply` of the model's answer to that transcript, and it is never empty. A collected posting is never lost |
| `Agents.ShotSpec` | src/agents/agent_1.py:175-207 | `shot` raises the load error exactly when the stored transcript is NULL or not JSON. A reply is never empty, and once a posting is held `built_data` is present |
| `Agents.HarvestSpec` | src/agents/agent_1.py:228-275 | A reply gives a new posting exactly when its slice is non-empty, parses and validates. Otherwise the held posting is kept |
| `Agents.ShotHistory` | src/agents/agent_1.py:175-195 | On a loaded list, `shot` does not raise. The transcript is the loaded list, then the user entry if the input is not blank, then one assistant entry with the non-empty reply |
| `Agents.ShotUnloadable` | src/agents/agent_1.py:172-179 | A NULL, malformed or non-list stored transcript makes `shot` raise |
| `Agents.BlankInputSkipsModel` | src/agents/agent_1.py:214-215 | Blank input gives `"Please provide a response."` whatever the model would say, so no model call matters, and the posting is left alone |
| `Agents.ShotBuiltData` | src/agents/agent_1.py:183-195 | For a fresh agent, `built_data` is present exactly when this turn's reply held an object that parsed and validated. It is then the dump of that posting |
| `Agents.GreetingSpec` | src/agents/agent_1.py:149-170 | The greeting appends one assistant entry exactly for a non-empty reply on a list transcript. Otherwise the transcript is unchanged and the reply is an `"Error: "` string |
| `Agents.Agent.constructor` | src/agents/agent_1.py:124-144 | A new agent holds the single system entry and no posting |
| `Agents.Agent.History` | src/agents/agent_1.py:146-147 | The dump of the transcript. When `json.loads` inverts `json.dumps`, loading it gives back the same transcript |
| `Agents.Agent.GetInitialGreeting` | src/agents/agent_1.py:149-170 | The reply and the new transcript are those of `GreetReply` and `GreetMessages` on the model's answer to the current transcript. The posting is untouched |
| `Agents.Agent.LoadMessages` | src/agents/agent_1.py:172-173 | Succeeds exactly when the stored text is present and parses. The transcript is then the parsed value |
| `Agents.Agent.ProcessUserResponse` | src/agents/agent_1.py:209-281 | Reply, transcript and posting are exactly those of the specification `Process` of the old state |
| `Agents.Agent.Respond` | src/agents/agent_1.py:219-281 | The reply is the `TurnReply` of the completion: its text, or the fixed API-error or unexpected-error text. The transcript is untouched, and the posting moves only on a non-empty reply, to `Harvest` of that reply |
| `Agents.Agent.Collect` | src/agents/agent_1.py:229-274 | The posting becomes `Harvest` of the reply: replaced only by a brace-delimited extract that parses and validates, kept otherwise. The transcript is untouched |
| `Agents.Agent.Shot` | src/agents/agent_1.py:175-207 | The result is `ShotSpec` of the held posting, stored text and input. On success `history()` is the returned transcript. The new state is given in every outcome. When the load fails, nothing changes. Otherwise the posting is the one `Process` leaves, and the transcript is `Process`'s transcript, plus the assistant reply on success |
| `MessageQueue.Channel.Put` | src/mediators/message_queue_mediator.py:16-18 | Appends at the tail |
| `MessageQueue.Channel.Take` | src/mediators/message_queue_mediator.py:11-14 | Removes and returns the head, and leaves an empty queue alone |
| `MessageQueue.Enqueued` | src/mediators/message_queue_mediator.py:16-18 | `put` keeps the keys. An absent key changes nothing. A present key gets the content at its tail, and the other keys are unchanged |
| `MessageQueue.Dequeued` | src/mediators/message_queue_mediator.py:11-14 | `get` keeps the keys. An absent key gives `None` and changes nothing. A non-empty queue gives and loses its head |
| `MessageQueue.PutAllAppends` | src/mediators/message_queue_mediator.py:16-18 | Several `put`s append their contents in order |
| `MessageQueue.DrainTakesPrefix` | src/mediators/message_queue_mediator.py:11-14 | Several `get`s return the queue's first items in order and leave the rest |
| `MessageQueue.FifoDelivery` | src/mediators/message_queue_mediator.py:11-18 | Items put on an empty queue come out in the order they were put, and the registry returns to its prior state |
| `MessageQueue.MessageQueueMediator.constructor` | src/mediators/message_queue_mediator.py:8-9 | The registry starts empty |
| `MessageQueue.MessageQueueMediator.Get` | src/mediators/message_queue_mediator.py:11-14 | The result and the new contents are `Dequeued` of the old contents. The registered queues are the same objects |
| `MessageQueue.MessageQueueMediator.Put` | src/mediators/message_queue_mediator.py:16-18 | The new contents are `Enqueued` of the old. The registered queues are the same objects |
| `ChatRouter.Events` | src/api/chat_router.py:65-69 | One `message` event per reply, in order |
| `ChatRouter.Create` | src/api/chat_router.py:28-34 | Inserts a session with a NULL transcript and returns it, with the greeting scheduled as a task, not yet run |
| `ChatRouter.UserMessage` | src/api/chat_router.py:50-55 | Acknowledges with exactly the input and schedules that turn for that session |
| `ChatRouter.Subscribe` | src/api/chat_router.py:58-61 | Registers a fresh empty queue under the session, replacing any earlier one |
| `ChatRouter.EventGenerator` | src/api/chat_router.py:63-72 | Emits one event per reply before the first `"FINISHED"`, in queue order. At the sentinel it deletes the registry entry, whichever queue it holds, and ends with `KeyError` when there is none. Without a sentinel it drains the queue and suspends |
| `ChatRouter.Disconnect` | src/api/chat_router.py:70-72 | Cancellation deletes the session's entry, failing with `KeyError` when there is none |
| `ChatRouter.SentinelCut` | src/api/chat_router.py:65-69 | For replies without the sentinel followed by the sentinel, the stream's cut falls exactly between them |
| `ChatRouter.DeliveryScenario` | src/api/chat_router.py:58-72 | Subscribe, then put `"hello"`, `"bye"` and the sentinel: the stream gives those two events and finishes. The session is unregistered and a later put is dropped |
| `ChatRouter.ReconnectScenario` | src/api/chat_router.py:58-72 | A second subscribe takes over delivery. The older stream's disconnect then unregisters the newer one, which receives nothing more |
| `Repositories.Touch` | src/repositories/repository.py:68-72 | The id and creation time are kept and the columns replaced. `updated_at` moves only when a column changes |
| `Repositories.Repository.constructor` | src/repositories/repository.py:16-18 | A repository starts with an empty table of its model |
| `Repositories.Repository.ReadById` | src/repositories/repository.py:20-27 | Returns the record with that id, fails when there is none, and needs a session |
| `Repositories.Repository.Read` | src/repositories/repository.py:29-36 | Returns exactly the stored records, and needs a session |
| `Repositories.Repository.Create` | src/repositories/repository.py:38-56 | A taken id returns the stored record with nothing changed. A free id inserts the stamped record, unless its unique column clashes. The table stays well formed |
| `Repositories.Repository.Update` | src/repositories/repository.py:58-73 | An unknown id fails with `ID_INVALID`. Otherwise every column but id and timestamps is copied onto the stored record, keeping its id and creation time |
| `Repositories.Repository.Delete` | src/repositories/repository.py:75-84 | Removes exactly that record and nothing else |
| `Repositories.Repository.ReadBySessionId` | src/repositories/company_repository.py:12-19 | Returns the company whose unique `session_id` matches, and fails when there is none |
| `Actions.UpsertCompany` | src/actions/company/upsert_company.py:13-23 | Leaves the table as `Upserted` specifies. Always returns the stored company of that session, holding the given data |
| `Actions.UpdateChatSession` | src/actions/chat_session/update_chat_session.py:14-21 | Leaves the table as `Overwritten` specifies. Succeeds exactly for a known id and returns the updated record with that transcript |
| `Actions.UpsertedSpec` | src/actions/company/upsert_company.py:13-23 | After an upsert, exactly one company has the session id (src/models/company.py:10) and it holds the data. Other companies are unchanged, and a record is added only when none existed |
| `Actions.UpsertIdempotent` | src/actions/company/upsert_company.py:13-23 | Repeating the same upsert leaves the table as the first left it |
| `Actions.OverwrittenSpec` | src/actions/chat_session/update_chat_session.py:15-20 | Only that session's transcript changes, to the given text, keeping its creation time. An unknown id changes nothing |
| `Actions.OverwriteIdempotent` | src/actions/chat_session/update_chat_session.py:18-19 | Writing the same transcript twice equals writing it once |
| `Orchestration.AgentOrchestrator.constructor` | src/orchestrators/agent_orchestrator.py:18-19 | The orchestrator starts from two well-formed tables and a registry |
| `Orchestration.AgentOrchestrator.DispatchQuery` | src/orchestrators/agent_orchestrator.py:21-30 | An unknown session or a raising `shot` writes and publishes nothing. Otherwise the turn runs on a fresh agent. The transcript is overwritten with its history, and the company is upserted when `built_data` is truthy. The reply is put to the session's queue |
| `Orchestration.AgentOrchestrator.Commit` | src/orchestrators/agent_orchestrator.py:26-30 | Overwrites the transcript, upserts a truthy posting, then publishes the reply |
| `Orchestration.AgentOrchestrator.DispatchGreetings` | src/orchestrators/agent_orchestrator.py:32-37 | A fresh agent's greeting transcript is stored and its reply published, including an error reply. An unknown session publishes nothing |
| `Orchestration.TurnOnListTranscript` | src/orchestrators/agent_orchestrator.py:22-29 | A session holding a stored list never aborts in `shot`. The transcript stored is that list, then the user entry and the reply for non-blank input. Blank input publishes the fixed prompt and upserts no company, and the stored transcript still gains that prompt as an assistant entry |
| `Orchestration.FreshSessionAborts` | src/orchestrators/agent_orchestrator.py:22-24 | A session whose transcript was never stored (NULL) aborts every turn at the load |
| `Orchestration.GreetingTranscript` | src/orchestrators/agent_orchestrator.py:32-37 | The stored greeting transcript is the system entry plus the greeting for a non-empty reply, and the system entry alone (next to an error reply) otherwise |
| `Orchestration.SavedOnlyWhenCollected` | src/orchestrators/agent_orchestrator.py:27-29 | The companies table changes only for truthy `built_data`, and then holds a company for the session |

## Left out

- The language-model client (model name, temperature, base URL, API key) is the oracle `complete`. Nothing about the model's answers is assumed.
- JSON text is not parsed or printed. `json.loads`, `json.dumps` and `model_dump_json(indent=2)` are the oracle `Codec`, and key order and indentation are not modelled.
- The system prompt's text is a placeholder constant. Its wording carries no logic.
- Logging and `print`, the import-time checks of environment variables, and the console loop `main()` are left out.
- The other keys of `collected_data` are left out: the source never writes them.
- `Agents.Agent.Shot`: the `"LLM returned an empty response"` branch and the trailing `return "", "", ""` are not modelled. `process_user_response` never returns an empty string, so neither can run.
- `Agents.Agent.Shot`: the APIError handler of `shot` is not modelled. `process_user_response` already turns API errors into reply text. Both remaining failures are reported as `UnexpectedErrorRaised` and not by message text.
- `Agents.Agent.ProcessUserResponse`: appending to a loaded transcript that is not a list raises in the source. The model returns `Failure` and keeps the agent's state, and `shot` then reports the unexpected error.
- `Schema.Validate`: pydantic's `TypeError` for a non-dict payload and its `ValidationError` are both refusals. The agent swallows both alike. Violation messages and pydantic's exact error ordering are not modelled.
- asyncio is left out: `create_task`, `asyncio.sleep` before the greeting is stored, the singletons, and task interleaving. Each dispatch and registry operation is atomic. A `create` or `user_message` returns its task for the event loop rather than running it.
- `await queue.get()` on an empty queue suspends. The model reports this as `WouldBlock` from `get` and `Suspended` from the stream.
- SQLAlchemy sessions, the `db_session` decorator, rollback, `ReleaseSession` and the engine setup are left out. An operation receives `Open` or `NoSession`.
- Id generation and `GetCurrentTime` are left out. A caller passes a fresh id and a `now` stamp.
- `Repositories.Repository.Delete` deletes by the entity's id. It does not model SQLAlchemy refusing a transient instance in any other way.
- The `update` and `read` endpoints of chat_router.py are `Actions.UpdateChatSession` and `Repositories.Repository.ReadById` behind the response DTO. The DTOs, the company router and the status mapping in main.py are left out.
