/**
 * `Repository(model)` of repository.py over an in-memory table: a map from
 * primary key to record. Each `Repository` object owns the table of its
 * model; `companies.session_id` is the one unique column (company.py).
 */
module Repositories {
  import opened Wrappers

  type Id = string

  /** An opaque clock reading, supplied by the caller. */
  type Stamp = nat

  datatype Model = ChatSessionModel | CompanyModel

  /** The columns `to_dict(exclude={"updated_at", "created_at", "id"})` yields, per model. */
  datatype Columns =
    | ChatSessionColumns(messages: Option<string>)
    | CompanyColumns(sessionId: string, data: Option<string>)

  datatype Record = Record(id: Id, createdAt: Stamp, updatedAt: Stamp, columns: Columns)

  /**
   * `DB_SESSION_NOT_FOUND` and `ID_INVALID` come from the repository itself;
   * the others stand for SQLAlchemy's NoResultFound, IntegrityError and the
   * error on deleting an instance that is not stored.
   */
  datatype DbError = DbSessionNotFound | NoResultFound | IdInvalid | IntegrityError | NotPersisted

  /** Whether the caller was handed a database session (the `db_session` decorator supplies one). */
  datatype DbSession = NoSession | Open

  function ModelOf(c: Columns): Model {
    match c
    case ChatSessionColumns(_) => ChatSessionModel
    case CompanyColumns(_, _) => CompanyModel
  }

  /** The value of the record's unique column, if its model has one. */
  function UniqueKey(c: Columns): Option<string> {
    match c
    case CompanyColumns(sid, _) => Some(sid)
    case ChatSessionColumns(_) => None
  }

  /** Whether storing `cols` under `id` would repeat another record's unique value. */
  predicate Clashes(rows: map<Id, Record>, id: Id, cols: Columns) {
    UniqueKey(cols).Some? &&
    exists other :: other in rows && other != id && UniqueKey(rows[other].columns) == UniqueKey(cols)
  }

  /** A table of `model`: keyed by id, all of that model, unique values distinct. */
  ghost predicate TableInvariant(rows: map<Id, Record>, model: Model) {
    && (forall id :: id in rows ==> rows[id].id == id && ModelOf(rows[id].columns) == model)
    && (forall a, b :: a in rows && b in rows && a != b && UniqueKey(rows[a].columns).Some? ==>
          UniqueKey(rows[a].columns) != UniqueKey(rows[b].columns))
  }

  /**
   * A stored record given new column values. The ORM emits an UPDATE, and so
   * a new `updated_at`, only when some column actually changes.
   */
  function Touch(r: Record, cols: Columns, now: Stamp): (t: Record)
    ensures t.id == r.id && t.createdAt == r.createdAt && t.columns == cols
    ensures cols == r.columns ==> t == r
    ensures cols != r.columns ==> t.updatedAt == now
  {
    if cols == r.columns then r else r.(columns := cols, updatedAt := now)
  }

  class Repository {
    const model: Model
    var rows: map<Id, Record>

    ghost predicate Valid()
      reads this
    {
      TableInvariant(rows, model)
    }

    constructor (model: Model)
      ensures this.model == model && rows == map[] && Valid()
    {
      this.model := model;
      rows := map[];
    }

    /** `read_by_id`: the record with that id (`.one()` fails when there is none). */
    method ReadById(session: DbSession, id: Id) returns (r: Result<Record, DbError>)
      requires Valid()
      ensures session.NoSession? ==> r == Failure(DbSessionNotFound)
      ensures session.Open? ==> (r.Success? <==> id in rows)
      ensures session.Open? && r.Success? ==> r.value == rows[id] && r.value.id == id
      ensures session.Open? && r.Failure? ==> r.error == NoResultFound
    {
      if session.NoSession? {
        return Failure(DbSessionNotFound);
      }
      if id !in rows {
        return Failure(NoResultFound);
      }
      r := Success(rows[id]);
    }

    /** `read`: every stored record. */
    method Read(session: DbSession) returns (r: Result<set<Record>, DbError>)
      requires Valid()
      ensures session.NoSession? ==> r == Failure(DbSessionNotFound)
      ensures session.Open? ==> r.Success?
      ensures r.Success? ==> forall x :: x in r.value <==> x.id in rows && rows[x.id] == x
    {
      if session.NoSession? {
        return Failure(DbSessionNotFound);
      }
      r := Success(rows.Values);
    }

    /**
     * `create`: hand back the stored record when the id is taken, otherwise
     * insert a new one, which the flush stamps and checks against the unique
     * column.
     */
    method Create(session: DbSession, id: Id, columns: Columns, now: Stamp) returns (r: Result<Record, DbError>)
      requires Valid() && ModelOf(columns) == model
      modifies this
      ensures Valid()
      ensures session.NoSession? ==> r == Failure(DbSessionNotFound) && rows == old(rows)
      ensures session.Open? && id in old(rows) ==> r == Success(old(rows)[id]) && rows == old(rows)
      ensures session.Open? && id !in old(rows) && Clashes(old(rows), id, columns) ==>
        r == Failure(IntegrityError) && rows == old(rows)
      ensures session.Open? && id !in old(rows) && !Clashes(old(rows), id, columns) ==>
        r == Success(Record(id, now, now, columns)) && rows == old(rows)[id := r.value]
    {
      if session.NoSession? {
        return Failure(DbSessionNotFound);
      }
      if id in rows {
        return Success(rows[id]);
      }
      if Clashes(rows, id, columns) {
        return Failure(IntegrityError);
      }
      var entity := Record(id, now, now, columns);
      rows := rows[id := entity];
      r := Success(entity);
    }

    /**
     * `update`: copy every column of `entity` but the id and the timestamps
     * onto the stored record with the same id.
     */
    method Update(session: DbSession, entity: Record, now: Stamp) returns (r: Result<Record, DbError>)
      requires Valid() && ModelOf(entity.columns) == model
      modifies this
      ensures Valid()
      ensures session.NoSession? ==> r == Failure(DbSessionNotFound) && rows == old(rows)
      ensures session.Open? && entity.id !in old(rows) ==> r == Failure(IdInvalid) && rows == old(rows)
      ensures session.Open? && entity.id in old(rows) && Clashes(old(rows), entity.id, entity.columns) ==>
        r == Failure(IntegrityError) && rows == old(rows)
      ensures session.Open? && entity.id in old(rows) && !Clashes(old(rows), entity.id, entity.columns) ==>
        && r == Success(Touch(old(rows)[entity.id], entity.columns, now))
        && rows == old(rows)[entity.id := r.value]
    {
      if session.NoSession? {
        return Failure(DbSessionNotFound);
      }
      if entity.id !in rows {
        return Failure(IdInvalid);
      }
      if Clashes(rows, entity.id, entity.columns) {
        return Failure(IntegrityError);
      }
      var stored := Touch(rows[entity.id], entity.columns, now);
      rows := rows[entity.id := stored];
      r := Success(stored);
    }

    /** `delete`: remove exactly that record. */
    method Delete(session: DbSession, entity: Record) returns (r: Result<Record, DbError>)
      requires Valid()
      modifies this
      ensures Valid()
      ensures session.NoSession? ==> r == Failure(DbSessionNotFound) && rows == old(rows)
      ensures session.Open? && entity.id !in old(rows) ==> r == Failure(NotPersisted) && rows == old(rows)
      ensures session.Open? && entity.id in old(rows) ==> r == Success(entity) && rows == old(rows) - {entity.id}
    {
      if session.NoSession? {
        return Failure(DbSessionNotFound);
      }
      if entity.id !in rows {
        return Failure(NotPersisted);
      }
      rows := rows - {entity.id};
      r := Success(entity);
    }

    /** `CompanyRepository.read_by_session_id`: the record whose unique column holds `sessionId`. */
    method ReadBySessionId(session: DbSession, sessionId: string) returns (r: Result<Record, DbError>)
      requires Valid()
      ensures session.NoSession? ==> r == Failure(DbSessionNotFound)
      ensures session.Open? ==>
        (r.Success? <==> exists id :: id in rows && UniqueKey(rows[id].columns) == Some(sessionId))
      ensures session.Open? && r.Success? ==>
        r.value.id in rows && rows[r.value.id] == r.value && UniqueKey(r.value.columns) == Some(sessionId)
      ensures session.Open? && r.Failure? ==> r.error == NoResultFound
    {
      if session.NoSession? {
        return Failure(DbSessionNotFound);
      }
      if exists id :: id in rows && UniqueKey(rows[id].columns) == Some(sessionId) {
        var id :| id in rows && UniqueKey(rows[id].columns) == Some(sessionId);
        r := Success(rows[id]);
      } else {
        r := Failure(NoResultFound);
      }
    }
  }
}
