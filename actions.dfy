/**
 * The two write actions: `UpsertCompany.upsert` (upsert_company.py) and
 * `UpdateChatSession.update` (update_chat_session.py), each against a
 * specification function on the table's rows.
 */
module Actions {
  import opened Wrappers
  import opened Repositories

  /** Whether some stored company carries `sessionId` in its unique column. */
  predicate HasCompany(rows: map<Id, Record>, sessionId: string) {
    exists id :: id in rows && UniqueKey(rows[id].columns) == Some(sessionId)
  }

  /**
   * The companies table after an upsert: the company of that session gets
   * the new data; when there is none, a new record `freshId` is stamped `now`.
   * Its properties are stated by `UpsertedSpec` and `UpsertIdempotent`.
   */
  ghost function Upserted(rows: map<Id, Record>, sessionId: string, data: string, freshId: Id, now: Stamp)
    : map<Id, Record>
  {
    var cols := CompanyColumns(sessionId, Some(data));
    if HasCompany(rows, sessionId) then
      var id :| id in rows && UniqueKey(rows[id].columns) == Some(sessionId);
      rows[id := Touch(rows[id], cols, now)]
    else
      rows[freshId := Record(freshId, now, now, cols)]
  }

  /**
   * The chat sessions table after the transcript of `sessionId` is
   * overwritten. Its properties are stated by `OverwrittenSpec` and
   * `OverwriteIdempotent`.
   */
  function Overwritten(rows: map<Id, Record>, sessionId: Id, messages: string, now: Stamp): (r: map<Id, Record>)
  {
    if sessionId in rows then rows[sessionId := Touch(rows[sessionId], ChatSessionColumns(Some(messages)), now)]
    else rows
  }

  /**
   * `upsert`: try to insert a new company; when the unique session id is
   * taken, load that company, set its data and update it.
   */
  method UpsertCompany(companies: Repository, sessionId: string, data: string, freshId: Id, now: Stamp)
    returns (company: Result<Record, DbError>)
    requires companies.Valid() && companies.model == CompanyModel && freshId !in companies.rows
    modifies companies
    ensures companies.Valid()
    ensures companies.rows == Upserted(old(companies.rows), sessionId, data, freshId, now)
    ensures company.Success? && company.value.id in companies.rows
    ensures companies.rows[company.value.id] == company.value
    ensures company.value.columns == CompanyColumns(sessionId, Some(data))
  {
    ghost var before := companies.rows;
    var instance := CompanyColumns(sessionId, Some(data));
    company := companies.Create(Open, freshId, instance, now);
    if company.Success? {
      return;
    }
    // The insert failed only on the unique column, so the company exists.
    var found := companies.ReadBySessionId(Open, sessionId);
    if found.Failure? {
      return found;
    }
    var edited := found.value.(columns := found.value.columns.(data := Some(data)));
    assert edited.columns == instance;
    company := companies.Update(Open, edited, now);
    assert !Clashes(before, edited.id, instance);
  }

  /** `update`: load the session by id, overwrite its transcript, commit. */
  method UpdateChatSession(chats: Repository, sessionId: Id, messages: string, now: Stamp)
    returns (r: Result<Record, DbError>)
    requires chats.Valid() && chats.model == ChatSessionModel
    modifies chats
    ensures chats.Valid()
    ensures chats.rows == Overwritten(old(chats.rows), sessionId, messages, now)
    ensures r.Success? <==> sessionId in old(chats.rows)
    ensures r.Success? ==> r.value == chats.rows[sessionId] && r.value.columns == ChatSessionColumns(Some(messages))
    ensures r.Failure? ==> r.error == NoResultFound
  {
    r := chats.ReadById(Open, sessionId);
    if r.Failure? {
      return;
    }
    var chatSession := Touch(r.value, ChatSessionColumns(Some(messages)), now);
    chats.rows := chats.rows[sessionId := chatSession];
    r := Success(chatSession);
  }

  // ---- Properties of the specification functions ----

  /**
   * After an upsert the table is still well formed, exactly the company of
   * that session holds the new data, every other company is as it was, and
   * at most the fresh record was added.
   */
  lemma UpsertedSpec(rows: map<Id, Record>, sessionId: string, data: string, freshId: Id, now: Stamp)
    requires TableInvariant(rows, CompanyModel) && freshId !in rows
    ensures var r := Upserted(rows, sessionId, data, freshId, now);
      && TableInvariant(r, CompanyModel)
      && HasCompany(r, sessionId)
      && (forall id :: id in r && UniqueKey(r[id].columns) == Some(sessionId) ==>
            r[id].columns == CompanyColumns(sessionId, Some(data)))
      && (forall id :: id in rows && UniqueKey(rows[id].columns) != Some(sessionId) ==> id in r && r[id] == rows[id])
      && (r.Keys == rows.Keys <==> HasCompany(rows, sessionId))
      && (r.Keys == rows.Keys || r.Keys == rows.Keys + {freshId})
  {
    var r := Upserted(rows, sessionId, data, freshId, now);
    var cols := CompanyColumns(sessionId, Some(data));
    if HasCompany(rows, sessionId) {
      var id :| id in rows && UniqueKey(rows[id].columns) == Some(sessionId);
      assert r == rows[id := Touch(rows[id], cols, now)];
      assert HasCompany(r, sessionId) by { assert UniqueKey(r[id].columns) == Some(sessionId); }
    } else {
      assert r == rows[freshId := Record(freshId, now, now, cols)];
      assert HasCompany(r, sessionId) by { assert UniqueKey(r[freshId].columns) == Some(sessionId); }
      assert freshId in r.Keys - rows.Keys;
    }
  }

  /** Upserting the same data twice leaves the table as the first upsert did. */
  lemma UpsertIdempotent(rows: map<Id, Record>, sessionId: string, data: string,
                         freshId1: Id, now1: Stamp, freshId2: Id, now2: Stamp)
    requires TableInvariant(rows, CompanyModel) && freshId1 !in rows
    ensures var once := Upserted(rows, sessionId, data, freshId1, now1);
      Upserted(once, sessionId, data, freshId2, now2) == once
  {
    var once := Upserted(rows, sessionId, data, freshId1, now1);
    UpsertedSpec(rows, sessionId, data, freshId1, now1);
    var id :| id in once && UniqueKey(once[id].columns) == Some(sessionId);
    assert once[id := Touch(once[id], CompanyColumns(sessionId, Some(data)), now2)] == once;
  }

  /**
   * Overwriting changes exactly the record of that session, keeps its id and
   * creation time, and leaves the table unchanged when the session is unknown.
   */
  lemma OverwrittenSpec(rows: map<Id, Record>, sessionId: Id, messages: string, now: Stamp)
    requires TableInvariant(rows, ChatSessionModel)
    ensures var r := Overwritten(rows, sessionId, messages, now);
      && TableInvariant(r, ChatSessionModel)
      && r.Keys == rows.Keys
      && (sessionId !in rows ==> r == rows)
      && (sessionId in rows ==>
            && r[sessionId].columns == ChatSessionColumns(Some(messages))
            && r[sessionId].createdAt == rows[sessionId].createdAt)
      && (forall id :: id in rows && id != sessionId ==> r[id] == rows[id])
  {
  }

  /** Writing the same transcript twice equals writing it once. */
  lemma OverwriteIdempotent(rows: map<Id, Record>, sessionId: Id, messages: string, now1: Stamp, now2: Stamp)
    ensures var once := Overwritten(rows, sessionId, messages, now1);
      Overwritten(once, sessionId, messages, now2) == once
  {
    var once := Overwritten(rows, sessionId, messages, now1);
    if sessionId in rows {
      assert once[sessionId].columns == ChatSessionColumns(Some(messages));
      assert once[sessionId := once[sessionId]] == once;
    }
  }
}
