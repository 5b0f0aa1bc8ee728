/**
 * The dialogue engine of agent_1.py: class `Agent` with its transcript
 * `messages` and the validated job posting it may have collected. The language
 * model is an oracle `complete` from the message list to a `Completion`; JSON
 * text conversion is the `codec` oracle.
 */
module Agents {
  import opened Wrappers
  import opened JsonValues
  import opened Extraction
  import opened Schema

  /**
   * What one chat-completion request yields: a reply (`Reply("")` when the
   * content is empty or missing), an `openai.APIError`, or any other exception.
   */
  datatype Completion = Reply(content: string) | ApiError | Failed

  /** Stands for the interview instructions the transcript opens with. */
  const SystemPrompt: string := "job-posting stack interview instructions"

  const PleaseRespond: string := "Please provide a response."
  /** The prefix every failure reply starts with. */
  const ErrorMarker: string := "Error: "
  const UnexpectedError: string := ErrorMarker + "An unexpected error occurred."
  const CouldNotProcess: string := ErrorMarker + "Could not process your response. Please check your API key and network."
  const EmptyGreeting: string := ErrorMarker + "LLM returned an empty initial response."
  const CouldNotConnect: string := ErrorMarker + "Could not connect to the AI. Please check your API key and network."

  /** A `{"role": ..., "content": ...}` transcript entry. */
  function Entry(role: string, content: string): Json {
    JObject(map["role" := JString(role), "content" := JString(content)])
  }

  /** The transcript a new `Agent` starts from: the system entry alone. */
  function InitialMessages(): Json {
    JArray([Entry("system", SystemPrompt)])
  }

  /** Text that `str.strip()` leaves empty. */
  predicate Blank(input: string) {
    Strip(input) == []
  }

  /** The replies that report a failure rather than model output. */
  predicate IsErrorReply(r: string) {
    |ErrorMarker| <= |r| && r[..|ErrorMarker|] == ErrorMarker
  }

  lemma ErrorRepliesMarked()
    ensures IsErrorReply(UnexpectedError) && IsErrorReply(CouldNotProcess)
    ensures IsErrorReply(EmptyGreeting) && IsErrorReply(CouldNotConnect)
  {
    assert UnexpectedError[..|ErrorMarker|] == ErrorMarker;
    assert CouldNotProcess[..|ErrorMarker|] == ErrorMarker;
    assert EmptyGreeting[..|ErrorMarker|] == ErrorMarker;
    assert CouldNotConnect[..|ErrorMarker|] == ErrorMarker;
  }

  /** The reply `process_user_response` returns for a completion. */
  function TurnReply(c: Completion): (r: string)
    ensures r != ""
    ensures c.Reply? && c.content != "" ==> r == c.content
    ensures !(c.Reply? && c.content != "") ==> IsErrorReply(r)
  {
    ErrorRepliesMarked();
    match c
    case Reply(s) => if s == "" then UnexpectedError else s
    case ApiError => CouldNotProcess
    case Failed => UnexpectedError
  }

  /**
   * The job posting held after a non-empty reply: the embedded object when it
   * parses and validates, and the one held before otherwise.
   */
  function Harvest(codec: Codec, reply: string, prior: Option<JobPostingOutput>): (r: Option<JobPostingOutput>)
    ensures r != prior ==>
      && r.Some? && IsPotentialJsonObject(BraceSlice(reply))
      && codec.parse(BraceSlice(reply)).Some?
      && Validate(codec.parse(BraceSlice(reply)).value) == Success(r.value)
  {
    var extracted := BraceSlice(reply);
    if !IsPotentialJsonObject(extracted) then prior
    else match codec.parse(extracted)
      case None => prior
      case Some(j) =>
        match Validate(j)
        case Success(p) => Some(p)
        case Failure(_) => prior
  }

  /** `model_dump_json` of the collected posting, if any. */
  function Built(codec: Codec, posting: Option<JobPostingOutput>): Option<string> {
    if posting.Some? then Some(codec.dump(ToJson(posting.value))) else None
  }

  /** The part of an `Agent` a turn reads and writes. */
  datatype AgentState = AgentState(messages: Json, posting: Option<JobPostingOutput>)

  /**
   * `process_user_response` on a state: its reply (`Failure` when the
   * transcript is not a list and appending to it raises) and the new state.
   */
  function Process(complete: Json -> Completion, codec: Codec, st: AgentState, input: string)
    : (r: (Result<string, string>, AgentState))
    ensures Blank(input) ==> r == (Success(PleaseRespond), st)
    ensures r.0.Failure? <==> !Blank(input) && !st.messages.JArray?
    ensures r.0.Failure? ==> r.1 == st
    ensures r.0.Success? ==> r.0.value != ""
    ensures !Blank(input) && st.messages.JArray? ==>
      && r.1.messages == JArray(st.messages.items + [Entry("user", input)])
      && r.0 == Success(TurnReply(complete(r.1.messages)))
    ensures r.1.posting != st.posting ==> r.1.posting.Some?
  {
    if Blank(input) then (Success(PleaseRespond), st)
    else if !st.messages.JArray? then (Failure("AttributeError"), st)
    else
      var sent := JArray(st.messages.items + [Entry("user", input)]);
      var c := complete(sent);
      var posting := if c.Reply? && c.content != "" then Harvest(codec, c.content, st.posting) else st.posting;
      (Success(TurnReply(c)), AgentState(sent, posting))
  }

  /** Why `shot` raised: the stored transcript did not load, or a later step failed. */
  datatype ShotError = LoadError | UnexpectedErrorRaised

  /** `shot`'s (response, messages, built_data), or the exception it raised. */
  datatype ShotResult =
    | Shot(reply: string, transcript: string, builtData: Option<string>)
    | Raised(error: ShotError)

  /** `shot` on an agent holding `prior`: load the transcript, run a turn, record the reply. */
  function ShotSpec(complete: Json -> Completion, codec: Codec, prior: Option<JobPostingOutput>,
                    stored: Option<string>, input: string): (r: ShotResult)
    ensures (stored.None? || codec.parse(stored.value).None?) ==> r == Raised(LoadError)
    ensures r.Raised? ==> (r.error == LoadError <==> stored.None? || codec.parse(stored.value).None?)
    ensures r.Shot? ==> r.reply != "" && (prior.Some? ==> r.builtData.Some?)
  {
    var loaded := if stored.Some? then codec.parse(stored.value) else None;
    if loaded.None? then Raised(LoadError)
    else
      var step := Process(complete, codec, AgentState(loaded.value, prior), input);
      if step.0.Failure? || !step.1.messages.JArray? then Raised(UnexpectedErrorRaised)
      else
        var final := JArray(step.1.messages.items + [Entry("assistant", step.0.value)]);
        Shot(step.0.value, codec.dump(final), Built(codec, step.1.posting))
  }

  /** `get_initial_greeting`'s reply; its properties are stated by `GreetingSpec`. */
  function GreetReply(c: Completion, messages: Json): string {
    match c
    case Reply(s) =>
      if s == "" then EmptyGreeting
      else if messages.JArray? then s
      else UnexpectedError
    case ApiError => CouldNotConnect
    case Failed => UnexpectedError
  }

  /** The transcript after `get_initial_greeting`; its properties are stated by `GreetingSpec`. */
  function GreetMessages(c: Completion, messages: Json): Json {
    if c.Reply? && c.content != "" && messages.JArray?
    then JArray(messages.items + [Entry("assistant", c.content)])
    else messages
  }

  // ---- Properties of a turn ----

  /**
   * A reply yields a new posting exactly when its brace slice is non-empty,
   * parses, and passes the schema; otherwise the prior one is kept.
   */
  lemma HarvestSpec(codec: Codec, reply: string, prior: Option<JobPostingOutput>)
    ensures var extracted := BraceSlice(reply);
      var parsed := codec.parse(extracted);
      if extracted != [] && parsed.Some? && IsJobPosting(parsed.value)
      then Harvest(codec, reply, prior) == Some(Validate(parsed.value).value)
      else Harvest(codec, reply, prior) == prior
  {
    BraceSliceIsPotentialObject(reply);
  }

  /**
   * After `shot` on a loaded list the transcript is that list, then the user
   * entry unless the input is blank, then one assistant entry holding the
   * reply, which is never empty; the model saw the list with the user entry.
   */
  lemma ShotHistory(complete: Json -> Completion, codec: Codec, prior: Option<JobPostingOutput>,
                    stored: Option<string>, input: string)
    requires stored.Some? && codec.parse(stored.value).Some? && codec.parse(stored.value).value.JArray?
    ensures var items := codec.parse(stored.value).value.items;
      var r := ShotSpec(complete, codec, prior, stored, input);
      && r.Shot?
      && r.reply != ""
      && r.transcript == codec.dump(JArray(
           items + (if Blank(input) then [] else [Entry("user", input)]) + [Entry("assistant", r.reply)]))
      && (Blank(input) ==> r.reply == PleaseRespond)
      && (!Blank(input) ==> r.reply == TurnReply(complete(JArray(items + [Entry("user", input)]))))
  {
    var items := codec.parse(stored.value).value.items;
    assert items + [] == items;
  }

  /** A transcript that is NULL, not JSON, or not a list makes `shot` raise. */
  lemma ShotUnloadable(complete: Json -> Completion, codec: Codec, prior: Option<JobPostingOutput>,
                       stored: Option<string>, input: string)
    requires stored.None? || codec.parse(stored.value).None? || !codec.parse(stored.value).value.JArray?
    ensures ShotSpec(complete, codec, prior, stored, input).Raised?
  {
  }

  /** Blank input gets the fixed prompt, whatever the model would have said. */
  lemma BlankInputSkipsModel(c1: Json -> Completion, c2: Json -> Completion, codec: Codec,
                             prior: Option<JobPostingOutput>, stored: Option<string>, input: string)
    requires Blank(input)
    ensures ShotSpec(c1, codec, prior, stored, input) == ShotSpec(c2, codec, prior, stored, input)
    ensures ShotSpec(c1, codec, prior, stored, input).Shot? ==>
      && ShotSpec(c1, codec, prior, stored, input).reply == PleaseRespond
      && ShotSpec(c1, codec, prior, stored, input).builtData == Built(codec, prior)
  {
    var loaded := if stored.Some? then codec.parse(stored.value) else None;
    if loaded.Some? {
      var st := AgentState(loaded.value, prior);
      var p1 := Process(c1, codec, st, input);
      var p2 := Process(c2, codec, st, input);
      assert p1 == (Success(PleaseRespond), st) && p2 == p1;
      if st.messages.JArray? {
        var shot := Shot(PleaseRespond, codec.dump(JArray(st.messages.items + [Entry("assistant", PleaseRespond)])),
                         Built(codec, prior));
        assert ShotSpec(c1, codec, prior, stored, input) == shot;
        assert ShotSpec(c2, codec, prior, stored, input) == shot;
      } else {
        assert ShotSpec(c1, codec, prior, stored, input) == Raised(UnexpectedErrorRaised);
        assert ShotSpec(c2, codec, prior, stored, input) == Raised(UnexpectedErrorRaised);
      }
    }
  }

  /**
   * On a fresh agent, `built_data` is present exactly when this turn's reply
   * held an object that parsed and validated, and it is that object's dump.
   */
  lemma ShotBuiltData(complete: Json -> Completion, codec: Codec, stored: Option<string>, input: string)
    requires stored.Some? && codec.parse(stored.value).Some? && codec.parse(stored.value).value.JArray?
    ensures var items := codec.parse(stored.value).value.items;
      var c := complete(JArray(items + [Entry("user", input)]));
      var r := ShotSpec(complete, codec, None, stored, input);
      var extracted := if c.Reply? then BraceSlice(c.content) else [];
      var parsed := codec.parse(extracted);
      if !Blank(input) && c.Reply? && extracted != [] && parsed.Some? && IsJobPosting(parsed.value)
      then r.builtData == Some(codec.dump(ToJson(Validate(parsed.value).value)))
      else r.builtData == None
  {
    var items := codec.parse(stored.value).value.items;
    var c := complete(JArray(items + [Entry("user", input)]));
    if c.Reply? {
      HarvestSpec(codec, c.content, None);
    }
  }

  /**
   * `get_initial_greeting` appends one assistant entry exactly for a
   * non-empty reply on a list transcript; otherwise the transcript is
   * unchanged and the reply is an error string.
   */
  lemma GreetingSpec(c: Completion, messages: Json)
    ensures GreetMessages(c, messages) != messages <==> (c.Reply? && c.content != "" && messages.JArray?)
    ensures GreetMessages(c, messages) != messages ==>
      && GreetReply(c, messages) != ""
      && GreetMessages(c, messages) == JArray(messages.items + [Entry("assistant", GreetReply(c, messages))])
    ensures GreetMessages(c, messages) == messages ==> IsErrorReply(GreetReply(c, messages))
  {
    ErrorRepliesMarked();
    if c.Reply? && c.content != "" && messages.JArray? {
      assert |GreetMessages(c, messages).items| == |messages.items| + 1;
    }
  }

  class Agent {
    const complete: Json -> Completion
    const codec: Codec
    /** `self.messages`: whatever the last `json.loads` produced, a list when well formed. */
    var messages: Json
    /** `self.collected_data["final_job_posting_output"]`. */
    var finalJobPosting: Option<JobPostingOutput>

    constructor (complete: Json -> Completion, codec: Codec)
      ensures this.complete == complete && this.codec == codec
      ensures messages == InitialMessages() && finalJobPosting == None
    {
      this.complete := complete;
      this.codec := codec;
      messages := InitialMessages();
      finalJobPosting := None;
    }

    /**
     * `history()`: the serialized transcript, which `load_messages` turns
     * back into the same transcript whenever `json.loads` inverts `json.dumps`.
     */
    function History(): (r: string)
      reads this
      ensures RoundTrips(codec) ==> codec.parse(r) == Some(messages)
    {
      codec.dump(messages)
    }

    method GetInitialGreeting() returns (reply: string)
      modifies this
      ensures reply == GreetReply(complete(old(messages)), old(messages))
      ensures messages == GreetMessages(complete(old(messages)), old(messages))
      ensures finalJobPosting == old(finalJobPosting)
    {
      var c := complete(messages);
      match c
      case ApiError => reply := CouldNotConnect;
      case Failed => reply := UnexpectedError;
      case Reply(content) =>
        if content == "" {
          reply := EmptyGreeting;
        } else if messages.JArray? {
          messages := JArray(messages.items + [Entry("assistant", content)]);
          reply := content;
        } else {
          reply := UnexpectedError;
        }
    }

    /** `load_messages`: `false` when `json.loads` raises (also for a NULL column). */
    method LoadMessages(stored: Option<string>) returns (ok: bool)
      modifies this
      ensures ok == (stored.Some? && codec.parse(stored.value).Some?)
      ensures ok ==> messages == codec.parse(stored.value).value
      ensures !ok ==> messages == old(messages)
      ensures finalJobPosting == old(finalJobPosting)
    {
      if stored.None? {
        return false;
      }
      var parsed := codec.parse(stored.value);
      ok := parsed.Some?;
      if ok {
        messages := parsed.value;
      }
    }

    method ProcessUserResponse(userInput: string) returns (r: Result<string, string>)
      modifies this
      ensures var step := Process(complete, codec, old(AgentState(messages, finalJobPosting)), userInput);
        r == step.0 && messages == step.1.messages && finalJobPosting == step.1.posting
    {
      if Blank(userInput) {
        return Success(PleaseRespond);
      }
      if !messages.JArray? {
        return Failure("AttributeError");
      }
      messages := JArray(messages.items + [Entry("user", userInput)]);
      var c := complete(messages);
      var reply := Respond(c);
      r := Success(reply);
    }

    /**
     * The `try` block of `process_user_response` after the model call: every
     * outcome becomes reply text, and a non-empty reply is mined for a posting.
     */
    method Respond(c: Completion) returns (reply: string)
      modifies this`finalJobPosting
      ensures reply == TurnReply(c)
      ensures finalJobPosting ==
        if c.Reply? && c.content != "" then Harvest(codec, c.content, old(finalJobPosting)) else old(finalJobPosting)
    {
      match c
      case ApiError => reply := CouldNotProcess;
      case Failed => reply := UnexpectedError;
      case Reply(content) =>
        if content == "" {
          reply := UnexpectedError;
        } else {
          Collect(content);
          reply := content;
        }
    }

    /**
     * The validation step of `process_user_response`: keep the reply's
     * embedded posting when it parses and validates; every failure is swallowed.
     */
    method Collect(reply: string)
      modifies this`finalJobPosting
      ensures finalJobPosting == Harvest(codec, reply, old(finalJobPosting))
    {
      ghost var prior := finalJobPosting;
      var extracted := ExtractJson(reply);
      if IsPotentialJsonObject(extracted) {
        var parsed := codec.parse(extracted);
        if parsed.Some? {
          var v := Validate(parsed.value);
          if v.Success? {
            finalJobPosting := Some(v.value);
          } else {
            assert Harvest(codec, reply, prior) == prior;
          }
        } else {
          assert Harvest(codec, reply, prior) == prior;
        }
      } else {
        assert Harvest(codec, reply, prior) == prior;
      }
    }

    method Shot(stored: Option<string>, userMessage: string) returns (r: ShotResult)
      modifies this
      ensures r == ShotSpec(complete, codec, old(finalJobPosting), stored, userMessage)
      ensures r.Shot? ==> History() == r.transcript
      ensures var loaded := if stored.Some? then codec.parse(stored.value) else None;
        if loaded.None? then messages == old(messages) && finalJobPosting == old(finalJobPosting)
        else
          var step := Process(complete, codec, AgentState(loaded.value, old(finalJobPosting)), userMessage);
          && finalJobPosting == step.1.posting
          && messages == (if r.Shot? then JArray(step.1.messages.items + [Entry("assistant", r.reply)])
                          else step.1.messages)
    {
      var ok := LoadMessages(stored);
      if !ok {
        return Raised(LoadError);
      }
      var reply := ProcessUserResponse(userMessage);
      if reply.Failure? || !messages.JArray? {
        return Raised(UnexpectedErrorRaised);
      }
      messages := JArray(messages.items + [Entry("assistant", reply.value)]);
      r := ShotResult.Shot(reply.value, History(), Built(codec, finalJobPosting));
    }
  }
}
