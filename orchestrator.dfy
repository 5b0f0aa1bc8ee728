/**
 * `AgentOrchestrator` of agent_orchestrator.py: one user turn or the opening
 * greeting, run to completion as a sequence of steps on the two tables and
 * the delivery registry. Each call builds a fresh `Agent`.
 */
module Orchestration {
  import opened Wrappers
  import opened JsonValues
  import opened Repositories
  import opened Actions
  import opened MessageQueue
  import opened Agents

  /** How a dispatched task ended: its reply was handed to the registry, or it raised. */
  datatype Dispatch = Published(reply: string) | Aborted

  /** `if built_data:` — `None` and the empty string are both falsy. */
  predicate Truthy(s: Option<string>) {
    s.Some? && s.value != ""
  }

  /** The companies table after a turn that produced `built`; `SavedOnlyWhenCollected` states its properties. */
  ghost function Saved(rows: map<Id, Record>, sessionId: string, built: Option<string>, freshId: Id, now: Stamp)
    : map<Id, Record>
  {
    if Truthy(built) then Upserted(rows, sessionId, built.value, freshId, now) else rows
  }

  class AgentOrchestrator {
    const chats: Repository
    const companies: Repository
    const registry: MessageQueueMediator
    const complete: Json -> Completion
    const codec: Codec

    ghost predicate Valid()
      reads this, chats, companies, registry
    {
      && chats != companies
      && chats.model == ChatSessionModel && companies.model == CompanyModel
      && chats.Valid() && companies.Valid() && registry.Valid()
    }

    constructor (chats: Repository, companies: Repository, registry: MessageQueueMediator,
                 complete: Json -> Completion, codec: Codec)
      requires chats != companies && chats.model == ChatSessionModel && companies.model == CompanyModel
      requires chats.Valid() && companies.Valid() && registry.Valid()
      ensures Valid()
      ensures this.chats == chats && this.companies == companies && this.registry == registry
      ensures this.complete == complete && this.codec == codec
    {
      this.chats := chats;
      this.companies := companies;
      this.registry := registry;
      this.complete := complete;
      this.codec := codec;
    }

    /**
     * `dispatch_query`: load the session, run one `shot`, store the
     * transcript, upsert the collected posting when there is one, and hand
     * the reply to the session's queue. Any exception ends the dispatch where it
     * is raised, with nothing written.
     */
    method DispatchQuery(sessionId: Id, userMessage: string, freshId: Id, now: Stamp) returns (d: Dispatch)
      requires Valid() && freshId !in companies.rows
      modifies chats, companies, registry.mq.Values
      ensures Valid() && registry.mq == old(registry.mq)
      ensures sessionId !in old(chats.rows) ==>
        d == Aborted && chats.rows == old(chats.rows) && companies.rows == old(companies.rows)
        && registry.Contents() == old(registry.Contents())
      ensures sessionId in old(chats.rows) ==>
        var s := ShotSpec(complete, codec, None, old(chats.rows)[sessionId].columns.messages, userMessage);
        match s
        case Raised(_) =>
          d == Aborted && chats.rows == old(chats.rows) && companies.rows == old(companies.rows)
          && registry.Contents() == old(registry.Contents())
        case Shot(reply, transcript, built) =>
          && d == Published(reply)
          && chats.rows == Overwritten(old(chats.rows), sessionId, transcript, now)
          && companies.rows == Saved(old(companies.rows), sessionId, built, freshId, now)
          && registry.Contents() == Enqueued(old(registry.Contents()), sessionId, reply)
    {
      ghost var pending := registry.Contents();
      var chatSession := chats.ReadById(Open, sessionId);
      if chatSession.Failure? {
        return Aborted;
      }
      var agent := new Agent(complete, codec);
      var s := agent.Shot(chatSession.value.columns.messages, userMessage);
      assert s == ShotSpec(complete, codec, None, old(chats.rows)[sessionId].columns.messages, userMessage);
      assert registry.Contents() == pending;
      if s.Raised? {
        return Aborted;
      }
      var history := agent.History();
      d := Commit(sessionId, s.reply, history, s.builtData, freshId, now);
    }

    /** The writes of a turn that did not raise, in `dispatch_query`'s order. */
    method Commit(sessionId: Id, reply: string, transcript: string, built: Option<string>, freshId: Id, now: Stamp)
      returns (d: Dispatch)
      requires Valid() && freshId !in companies.rows && sessionId in chats.rows
      modifies chats, companies, registry.mq.Values
      ensures Valid() && registry.mq == old(registry.mq)
      ensures d == Published(reply)
      ensures chats.rows == Overwritten(old(chats.rows), sessionId, transcript, now)
      ensures companies.rows == Saved(old(companies.rows), sessionId, built, freshId, now)
      ensures registry.Contents() == Enqueued(old(registry.Contents()), sessionId, reply)
    {
      ghost var pending := registry.Contents();
      var updated := UpdateChatSession(chats, sessionId, transcript, now);
      assert registry.Contents() == pending;
      if Truthy(built) {
        var company := UpsertCompany(companies, sessionId, built.value, freshId, now);
        assert registry.Contents() == pending;
      }
      registry.Put(sessionId, reply);
      d := Published(reply);
    }

    /**
     * `dispatch_greetings`: a fresh agent greets, its transcript is stored
     * (also when the greeting is an error text) and the greeting is handed to
     * the session's queue. An unknown session raises at the store, before
     * anything is delivered.
     */
    method DispatchGreetings(sessionId: Id, now: Stamp) returns (d: Dispatch)
      requires Valid()
      modifies chats, registry.mq.Values
      ensures Valid() && registry.mq == old(registry.mq)
      ensures var c := complete(InitialMessages());
        && chats.rows == Overwritten(old(chats.rows), sessionId, codec.dump(GreetMessages(c, InitialMessages())), now)
        && (sessionId in old(chats.rows) ==>
              d == Published(GreetReply(c, InitialMessages()))
              && registry.Contents() == Enqueued(old(registry.Contents()), sessionId, d.reply))
        && (sessionId !in old(chats.rows) ==> d == Aborted && registry.Contents() == old(registry.Contents()))
    {
      ghost var pending := registry.Contents();
      var agent := new Agent(complete, codec);
      var response := agent.GetInitialGreeting();
      var history := agent.History();
      var updated := UpdateChatSession(chats, sessionId, history, now);
      assert registry.Contents() == pending;
      if updated.Failure? {
        return Aborted;
      }
      registry.Put(sessionId, response);
      d := Published(response);
    }
  }

  // ---- Properties of a dispatched turn ----

  /**
   * A turn on a session whose transcript is a stored list of messages is
   * never aborted. The transcript `dispatch_query` then stores is that list,
   * the user's entry unless the input is blank, and the published reply as an
   * assistant entry. Blank input publishes the fixed prompt and saves no
   * posting, yet the stored transcript still gains that prompt.
   */
  lemma TurnOnListTranscript(complete: Json -> Completion, codec: Codec, stored: string, input: string)
    requires codec.parse(stored).Some? && codec.parse(stored).value.JArray?
    ensures var items := codec.parse(stored).value.items;
      var s := ShotSpec(complete, codec, None, Some(stored), input);
      && s.Shot?
      && (!Blank(input) ==>
            s.transcript == codec.dump(JArray(items + [Entry("user", input)] + [Entry("assistant", s.reply)])))
      && (Blank(input) ==>
            && s.reply == PleaseRespond && s.builtData == None
            && s.transcript == codec.dump(JArray(items + [Entry("assistant", PleaseRespond)])))
  {
    var items := codec.parse(stored).value.items;
    var s := ShotSpec(complete, codec, None, Some(stored), input);
    if Blank(input) {
      assert s == Shot(PleaseRespond, codec.dump(JArray(items + [Entry("assistant", PleaseRespond)])), None) by {
        var st := AgentState(JArray(items), None);
        assert codec.parse(stored).value == JArray(items);
        assert Process(complete, codec, st, input) == (Success(PleaseRespond), st);
      }
    } else {
      ShotHistory(complete, codec, None, Some(stored), input);
    }
  }

  /**
   * The transcript `dispatch_greetings` stores: the system entry and the
   * greeting when the model gave a non-empty reply, the system entry alone
   * (next to an error reply) otherwise.
   */
  lemma GreetingTranscript(c: Completion)
    ensures c.Reply? && c.content != "" ==>
      && GreetMessages(c, InitialMessages()) == JArray([Entry("system", SystemPrompt), Entry("assistant", c.content)])
      && GreetReply(c, InitialMessages()) == c.content
    ensures !(c.Reply? && c.content != "") ==>
      && GreetMessages(c, InitialMessages()) == JArray([Entry("system", SystemPrompt)])
      && IsErrorReply(GreetReply(c, InitialMessages()))
  {
    GreetingSpec(c, InitialMessages());
    if c.Reply? && c.content != "" {
      assert [Entry("system", SystemPrompt)] + [Entry("assistant", c.content)]
        == [Entry("system", SystemPrompt), Entry("assistant", c.content)];
    }
  }

  /** A session that has never stored a transcript (a NULL column) aborts every turn. */
  lemma FreshSessionAborts(complete: Json -> Completion, codec: Codec, input: string)
    ensures ShotSpec(complete, codec, None, None, input) == Raised(LoadError)
  {
    ShotUnloadable(complete, codec, None, None, input);
  }

  /** A turn by a fresh agent saves a posting only when its reply carried one. */
  lemma SavedOnlyWhenCollected(rows: map<Id, Record>, sessionId: string, built: Option<string>, freshId: Id, now: Stamp)
    requires TableInvariant(rows, CompanyModel) && freshId !in rows
    ensures !Truthy(built) ==> Saved(rows, sessionId, built, freshId, now) == rows
    ensures Truthy(built) ==> HasCompany(Saved(rows, sessionId, built, freshId, now), sessionId)
  {
    if Truthy(built) {
      UpsertedSpec(rows, sessionId, built.value, freshId, now);
    }
  }
}
