/** Database: a connection with one ambient transaction. The field is set
    by BeginTransaction and cleared by Commit and Rollback, RunInTransaction
    wraps a caller's action in one, and every CRUD wrapper forwards to the
    implementor, enlisting the call in the explicit transaction when one is
    given and in the ambient one otherwise. */
module Database {
  import opened Clr
  import opened Wrappers
  import opened Predicates
  import opened Backend
  import opened Implementor
  import Statements
  import SqlExpression

  /** What the transaction machinery observes: the ambient transaction,
      the connection's handle counter and its log. */
  datatype Ambient = Ambient(transaction: Option<Tx>, transactions: nat, log: seq<Event>)

  /** One thing a RunInTransaction callback does through the database. */
  datatype Step =
    | Work(sql: string)     // Update(sql): a statement in the ambient transaction
    | BeginStep             // BeginTransaction()
    | CommitStep            // Commit()
    | RollbackStep          // Rollback()
    | Raise(raised: Exception)

  /** `transaction ?? _transaction`. */
  function Effective(explicit: Option<Tx>, ambient: Option<Tx>): Option<Tx> {
    if explicit.Some? then explicit else ambient
  }

  function BeginSpec(s: Ambient): Ambient {
    Ambient(Some(Tx(s.transactions)), s.transactions + 1, s.log + [TransactionBegun(Tx(s.transactions))])
  }

  function CommitSpec(s: Ambient): (Result<()>, Ambient) {
    if s.transaction.None? then (Throws(NullReference), s)
    else (Ok(()), Ambient(None, s.transactions, s.log + [TransactionCommitted(s.transaction.value)]))
  }

  function RollbackSpec(s: Ambient): (Result<()>, Ambient) {
    if s.transaction.None? then (Throws(NullReference), s)
    else (Ok(()), Ambient(None, s.transactions, s.log + [TransactionRolledBack(s.transaction.value)]))
  }

  function StepSpec(s: Ambient, step: Step): (Result<()>, Ambient) {
    match step
    case Work(sql) => (Ok(()), Ambient(s.transaction, s.transactions, s.log + [RoundTrip(Execute, sql, NoParam, s.transaction)]))
    case BeginStep => (Ok(()), BeginSpec(s))
    case CommitStep => CommitSpec(s)
    case RollbackStep => RollbackSpec(s)
    case Raise(e) => (Throws(e), s)
  }

  /** The callback: its steps in order, up to the first that throws. */
  function ActionSpec(s: Ambient, steps: seq<Step>): (Result<()>, Ambient)
    decreases |steps|
  {
    if |steps| == 0 then (Ok(()), s)
    else
      var (r, s1) := StepSpec(s, steps[0]);
      if r.Throws? then (r, s1) else ActionSpec(s1, steps[1..])
  }

  /** The catch block: roll back when a transaction is still active. */
  function Recover(s: Ambient): Ambient {
    if s.transaction.Some? then RollbackSpec(s).1 else s
  }

  /** RunInTransaction: begin, run the action, commit; on any exception
      from the action or the commit, recover and rethrow it. Whatever the
      action does, no transaction is active afterwards. */
  function RunSpec(s: Ambient, steps: seq<Step>): (r: (Result<()>, Ambient))
    ensures r.1.transaction == None
  {
    var (a, s2) := ActionSpec(BeginSpec(s), steps);
    var (c, s3) := if a.Ok? then CommitSpec(s2) else (a, s2);
    if c.Ok? then (c, s3) else (c, Recover(s3))
  }

  class Database {
    const dapper: DapperImplementor
    const connection: Connection
    var transaction: Option<Tx>

    function Current(): Ambient
      reads this, connection
    {
      Ambient(transaction, connection.transactions, connection.log)
    }

    predicate HasActiveTransaction()
      reads this
    {
      transaction.Some?
    }

    /** The connection is opened unless it already is. */
    constructor (connection: Connection, generator: SqlGenerator, guids: GuidSource)
      modifies connection
      ensures this.connection == connection && transaction == None
      ensures dapper.generator == generator && dapper.guids == guids
      ensures old(connection.state) == ConnectionState.Open ==>
        connection.state == ConnectionState.Open && connection.log == old(connection.log)
      ensures old(connection.state) != ConnectionState.Open ==>
        connection.state == ConnectionState.Open && connection.log == old(connection.log) + [ConnectionOpened]
      ensures connection.transactions == old(connection.transactions)
    {
      this.dapper := new DapperImplementor(generator, guids);
      this.connection := connection;
      this.transaction := None;
      new;
      if connection.state != ConnectionState.Open {
        connection.Open();
      }
    }

    /** A new handle becomes the ambient transaction; one already there is
        forgotten without being ended. */
    method BeginTransaction() returns (t: Tx)
      modifies this, connection
      ensures Current() == BeginSpec(old(Current())) && transaction == Some(t)
      ensures HasActiveTransaction()
      ensures connection.state == old(connection.state)
    {
      t := connection.BeginTransaction();
      transaction := Some(t);
    }

    /** Commits and clears the ambient transaction; without one, the
        null dereference. */
    method Commit() returns (r: Result<()>)
      modifies this, connection
      ensures (r, Current()) == CommitSpec(old(Current()))
      ensures !HasActiveTransaction()
      ensures connection.state == old(connection.state)
    {
      if transaction.None? {
        return Throws(NullReference);
      }
      connection.Commit(transaction.value);
      transaction := None;
      r := Ok(());
    }

    /** Rolls back and clears the ambient transaction; without one, the
        null dereference. */
    method Rollback() returns (r: Result<()>)
      modifies this, connection
      ensures (r, Current()) == RollbackSpec(old(Current()))
      ensures !HasActiveTransaction()
      ensures connection.state == old(connection.state)
    {
      if transaction.None? {
        return Throws(NullReference);
      }
      connection.Rollback(transaction.value);
      transaction := None;
      r := Ok(());
    }

    /** One step of a callback, done through this database. */
    method Perform(step: Step) returns (r: Result<()>)
      modifies this, connection
      ensures (r, Current()) == StepSpec(old(Current()), step)
    {
      match step
      case Work(sql) =>
        var _ := UpdateSql(sql, None);
        r := Ok(());
      case BeginStep =>
        var _ := BeginTransaction();
        r := Ok(());
      case CommitStep =>
        r := Commit();
      case RollbackStep =>
        r := Rollback();
      case Raise(e) =>
        r := Throws(e);
    }

    /** The callback itself: its steps until one throws. */
    method RunAction(steps: seq<Step>) returns (r: Result<()>)
      modifies this, connection
      ensures (r, Current()) == ActionSpec(old(Current()), steps)
    {
      r := Ok(());
      var i := 0;
      while i < |steps| && r.Ok?
        invariant 0 <= i <= |steps|
        invariant ActionSpec(old(Current()), steps) == (if r.Ok? then ActionSpec(Current(), steps[i..]) else (r, Current()))
        decreases |steps| - i
      {
        assert steps[i..][1..] == steps[i + 1..];
        r := Perform(steps[i]);
        i := i + 1;
      }
      if r.Ok? {
        assert steps[i..] == [] && r.value == ();
      }
    }

    /** RunInTransaction(Action). */
    method RunInTransaction(action: seq<Step>) returns (r: Result<()>)
      modifies this, connection
      ensures (r, Current()) == RunSpec(old(Current()), action)
      ensures !HasActiveTransaction()
    {
      var _ := BeginTransaction();
      var outcome := RunAction(action);
      if outcome.Ok? {
        r := Commit();
        if r.Ok? {
          return;
        }
      } else {
        r := outcome;
      }
      if HasActiveTransaction() {
        var _ := Rollback();
      }
    }

    /** RunInTransaction(Func<T>): the function's value on success. */
    method RunInTransactionWith<T>(func: seq<Step>, value: T) returns (r: Result<T>)
      modifies this, connection
      ensures var (outcome, after) := RunSpec(old(Current()), func);
        Current() == after && r == (if outcome.Ok? then Ok(value) else Throws(outcome.exception))
      ensures !HasActiveTransaction()
    {
      var _ := BeginTransaction();
      var outcome := RunAction(func);
      var result := value;
      if outcome.Ok? {
        var c := Commit();
        if c.Ok? {
          return Ok(result);
        }
        r := Throws(c.exception);
      } else {
        r := Throws(outcome.exception);
      }
      if HasActiveTransaction() {
        var _ := Rollback();
      }
    }

    /** Dispose: when the connection is not closed, roll back the ambient
        transaction if there is one, then close; the field itself is kept. */
    method Dispose()
      modifies connection
      ensures old(connection.state) != ConnectionState.Closed ==>
        connection.state == ConnectionState.Closed
        && connection.log == old(connection.log)
             + (if transaction.Some? then [TransactionRolledBack(transaction.value)] else [])
             + [ConnectionClosed]
      ensures old(connection.state) == ConnectionState.Closed ==>
        connection.state == old(connection.state) && connection.log == old(connection.log)
      ensures transaction == old(transaction)
    {
      if connection.state != ConnectionState.Closed {
        if transaction.Some? {
          connection.Rollback(transaction.value);
        }
        connection.Close();
      }
    }

    // The CRUD wrappers: each forwards to the implementor with the
    // transaction named in its contract.

    method Get(m: ClassMap, id: IdArg, tx: Option<Tx>) returns (r: Result<int>)
      modifies connection
      ensures RoundTripsIn(old(connection.log), connection.log, Effective(tx, transaction))
      ensures IdPredicate(m, id).Throws? ==> r == Throws(IdPredicate(m, id).exception) && connection.log == old(connection.log)
      ensures IdPredicate(m, id).Ok? ==>
        var st := dapper.generator.select(m, Some(IdPredicate(m, id).value), None, map[]);
        connection.log == old(connection.log) + [RoundTrip(Query, st.sql, Dynamic(st.parameters), Effective(tx, transaction))]
        && r == Ok(connection.reply(connection.log))
    {
      r := dapper.GetById(connection, m, id, Effective(tx, transaction));
    }

    method GetByExpression(h: SqlExpression.Host, m: ClassMap, exp: SqlExpression.Lambda, tx: Option<Tx>) returns (r: Result<int>)
      modifies connection
      ensures RoundTripsIn(old(connection.log), connection.log, Effective(tx, transaction))
      ensures SqlExpression.Where(h, exp).Throws? ==>
        r == Throws(SqlExpression.Where(h, exp).exception) && connection.log == old(connection.log)
      ensures SqlExpression.Where(h, exp).Ok? ==>
        connection.log == old(connection.log)
          + [RoundTrip(Query, Statements.SelectByExpression(m.entityTypeName, SqlExpression.Where(h, exp).value), NoParam, Effective(tx, transaction))]
        && r == Ok(connection.reply(connection.log))
    {
      r := dapper.GetByExpression(connection, h, m, exp, Effective(tx, transaction));
    }

    method InsertAll(m: ClassMap, entities: seq<Entity>, tx: Option<Tx>)
      requires dapper.guids.Valid()
      modifies connection, dapper.guids, set e | e in entities
      ensures dapper.guids.Valid() && old(dapper.guids.issued) <= dapper.guids.issued
      ensures forall e :: e in entities ==>
        GuidsAssigned(GuidNames(Keys(m)), old(e.fields), e.fields, dapper.guids.issued - old(dapper.guids.issued))
      ensures forall e1, e2 :: e1 in entities && e2 in entities && e1 != e2 ==>
        GuidsDisjoint(GuidNames(Keys(m)), e1.fields, e2.fields)
      ensures connection.log == old(connection.log) + [RoundTrip(Execute, dapper.generator.insert(m), EntitiesParam(Snapshot(entities)), Effective(tx, transaction))]
      ensures RoundTripsIn(old(connection.log), connection.log, Effective(tx, transaction))
    {
      dapper.InsertAll(connection, m, entities, Effective(tx, transaction));
    }

    method InsertOne(m: ClassMap, entity: Entity, tx: Option<Tx>) returns (r: Result<KeyValues>)
      requires dapper.guids.Valid()
      modifies connection, dapper.guids, entity
      ensures dapper.guids.Valid() && old(dapper.guids.issued) <= dapper.guids.issued
      ensures RoundTripsIn(old(connection.log), connection.log, Effective(tx, transaction))
      ensures |Identities(m)| > 1 ==>
        r == Throws(InvalidOperation) && connection.log == old(connection.log)
        && entity.fields == old(entity.fields) && dapper.guids.issued == old(dapper.guids.issued)
      ensures |Identities(m)| <= 1 ==> exists written: Row ::
        && GuidsAssigned(GuidNames(NonIdentityKeys(m)), old(entity.fields), written, dapper.guids.issued - old(dapper.guids.issued))
        && connection.log == old(connection.log) + InsertTrips(dapper.generator, m, written, Effective(tx, transaction))
        && entity.fields == WithIdentity(m, written, connection.reply(connection.log))
        && r == Ok(Returned(KeyEntries(m, entity.fields, connection.reply(connection.log))))
    {
      r := dapper.InsertOne(connection, m, entity, Effective(tx, transaction));
    }

    method UpdateEntity(m: ClassMap, entity: Entity, tx: Option<Tx>) returns (r: Result<bool>)
      requires Conforms(m, entity.fields)
      modifies connection
      ensures RoundTripsIn(old(connection.log), connection.log, Effective(tx, transaction))
      ensures KeyPredicate(m, entity.fields).Throws? ==>
        r == Throws(KeyPredicate(m, entity.fields).exception) && connection.log == old(connection.log)
      ensures KeyPredicate(m, entity.fields).Ok? ==>
        var st := dapper.generator.update(m, KeyPredicate(m, entity.fields).value, map[]);
        connection.log == old(connection.log) + [RoundTrip(Execute, st.sql, Dynamic(UpdateParameters(m, entity.fields, st.parameters)), Effective(tx, transaction))]
        && r == Ok(connection.reply(connection.log) > 0)
    {
      r := dapper.UpdateEntity(connection, m, entity, Effective(tx, transaction));
    }

    method UpdateByDictionary(show: Value -> string, m: ClassMap, updates: Option<seq<Statements.Property>>,
                              keys: Option<seq<Statements.Property>>, tx: Option<Tx>) returns (r: Result<int>)
      modifies connection
      ensures RoundTripsIn(old(connection.log), connection.log, Effective(tx, transaction))
      ensures updates.None? || keys.None? ==> r == Throws(NullReference) && connection.log == old(connection.log)
      ensures updates.Some? && keys.Some? ==>
        connection.log == old(connection.log)
          + [RoundTrip(Execute, Statements.UpdateText(show, m.entityTypeName, updates.value, keys.value), NoParam, Effective(tx, transaction))]
        && r == Ok(connection.reply(connection.log))
    {
      r := dapper.UpdateByDictionary(connection, show, m, updates, keys, Effective(tx, transaction));
    }

    method UpdateSql(sql: string, tx: Option<Tx>) returns (n: int)
      modifies connection
      ensures connection.log == old(connection.log) + [RoundTrip(Execute, sql, NoParam, Effective(tx, transaction))] && n == connection.reply(connection.log)
      ensures RoundTripsIn(old(connection.log), connection.log, Effective(tx, transaction))
      ensures connection.state == old(connection.state) && connection.transactions == old(connection.transactions)
    {
      n := dapper.UpdateSql(connection, sql, Effective(tx, transaction));
    }

    /** Delete(entity): only the explicit transaction is passed. */
    method DeleteEntity(m: ClassMap, entity: Entity, tx: Option<Tx>) returns (r: Result<bool>)
      requires Conforms(m, entity.fields)
      modifies connection
      ensures RoundTripsIn(old(connection.log), connection.log, tx)
      ensures KeyPredicate(m, entity.fields).Throws? ==>
        r == Throws(KeyPredicate(m, entity.fields).exception) && connection.log == old(connection.log)
      ensures KeyPredicate(m, entity.fields).Ok? ==>
        var st := dapper.generator.delete(m, Some(KeyPredicate(m, entity.fields).value), map[]);
        connection.log == old(connection.log) + [RoundTrip(Execute, st.sql, Dynamic(st.parameters), tx)]
        && r == Ok(connection.reply(connection.log) > 0)
    {
      r := dapper.DeleteEntity(connection, m, entity, tx);
    }

    method DeleteByFilter(m: ClassMap, f: Filter, tx: Option<Tx>) returns (b: bool)
      requires !f.Example?  // the parameter is an IPredicate, never a template
      modifies connection
      ensures var st := dapper.generator.delete(m, GetPredicate(f), map[]);
        connection.log == old(connection.log) + [RoundTrip(Execute, st.sql, Dynamic(st.parameters), Effective(tx, transaction))]
        && b == (connection.reply(connection.log) > 0)
      ensures RoundTripsIn(old(connection.log), connection.log, Effective(tx, transaction))
    {
      b := dapper.DeleteByFilter(connection, m, f, Effective(tx, transaction));
    }

    /** DeleteById as written: the merged transaction is computed, then the
        ambient one is passed, so an explicit transaction is ignored. */
    method DeleteById(m: ClassMap, id: IdArg, tx: Option<Tx>) returns (r: Result<bool>)
      modifies connection
      ensures RoundTripsIn(old(connection.log), connection.log, transaction)
      ensures IdPredicate(m, id).Throws? ==> r == Throws(IdPredicate(m, id).exception) && connection.log == old(connection.log)
      ensures IdPredicate(m, id).Ok? ==>
        var st := dapper.generator.delete(m, Some(IdPredicate(m, id).value), map[]);
        connection.log == old(connection.log) + [RoundTrip(Execute, st.sql, Dynamic(st.parameters), transaction)]
        && r == Ok(connection.reply(connection.log) > 0)
    {
      var merged := Effective(tx, transaction);
      r := dapper.DeleteById(connection, m, id, transaction);
    }

    /** DeleteById with the merged transaction passed, like its siblings. */
    method DeleteByIdInTransaction(m: ClassMap, id: IdArg, tx: Option<Tx>) returns (r: Result<bool>)
      modifies connection
      ensures RoundTripsIn(old(connection.log), connection.log, Effective(tx, transaction))
      ensures IdPredicate(m, id).Throws? ==> r == Throws(IdPredicate(m, id).exception) && connection.log == old(connection.log)
      ensures IdPredicate(m, id).Ok? ==>
        var st := dapper.generator.delete(m, Some(IdPredicate(m, id).value), map[]);
        connection.log == old(connection.log) + [RoundTrip(Execute, st.sql, Dynamic(st.parameters), Effective(tx, transaction))]
        && r == Ok(connection.reply(connection.log) > 0)
    {
      var merged := Effective(tx, transaction);
      r := dapper.DeleteById(connection, m, id, merged);
    }

    method GetList(m: ClassMap, f: Filter, sort: Option<seq<Sort>>, tx: Option<Tx>) returns (n: int)
      requires !f.Example?  // the parameter is an IPredicate, never a template
      modifies connection
      ensures var st := dapper.generator.select(m, GetPredicate(f), sort, map[]);
        connection.log == old(connection.log) + [RoundTrip(Query, st.sql, Dynamic(st.parameters), Effective(tx, transaction))] && n == connection.reply(connection.log)
      ensures RoundTripsIn(old(connection.log), connection.log, Effective(tx, transaction))
    {
      n := dapper.GetList(connection, m, GetPredicate(f), sort, Effective(tx, transaction));
    }

    method GetPage(m: ClassMap, f: Filter, sort: Option<seq<Sort>>, pageIndex: int, pageSize: int, tx: Option<Tx>) returns (n: int)
      requires !f.Example?  // the parameter is an IPredicate, never a template
      modifies connection
      ensures var st := dapper.generator.selectPaged(m, GetPredicate(f), sort, pageIndex, pageSize, map[]);
        connection.log == old(connection.log) + [RoundTrip(Query, st.sql, Dynamic(st.parameters), Effective(tx, transaction))] && n == connection.reply(connection.log)
      ensures RoundTripsIn(old(connection.log), connection.log, Effective(tx, transaction))
    {
      n := dapper.GetPage(connection, m, f, sort, pageIndex, pageSize, Effective(tx, transaction));
    }

    method GetSet(m: ClassMap, f: Filter, sort: Option<seq<Sort>>, firstResult: int, maxResults: int, tx: Option<Tx>) returns (n: int)
      requires !f.Example?  // the parameter is an IPredicate, never a template
      modifies connection
      ensures var st := dapper.generator.selectSet(m, GetPredicate(f), sort, firstResult, maxResults, map[]);
        connection.log == old(connection.log) + [RoundTrip(Query, st.sql, Dynamic(st.parameters), Effective(tx, transaction))] && n == connection.reply(connection.log)
      ensures RoundTripsIn(old(connection.log), connection.log, Effective(tx, transaction))
    {
      n := dapper.GetSet(connection, m, f, sort, firstResult, maxResults, Effective(tx, transaction));
    }

    method CountByFilter(m: ClassMap, f: Filter, tx: Option<Tx>) returns (n: int)
      requires !f.Example?  // the parameter is an IPredicate, never a template
      modifies connection
      ensures var st := dapper.generator.count(m, GetPredicate(f), map[]);
        connection.log == old(connection.log) + [RoundTrip(Query, st.sql, Dynamic(st.parameters), Effective(tx, transaction))] && n == connection.reply(connection.log)
      ensures RoundTripsIn(old(connection.log), connection.log, Effective(tx, transaction))
    {
      n := dapper.CountByFilter(connection, m, f, Effective(tx, transaction));
    }

    method CountByExpression(h: SqlExpression.Host, m: ClassMap, exp: SqlExpression.Lambda, tx: Option<Tx>) returns (r: Result<int>)
      modifies connection
      ensures RoundTripsIn(old(connection.log), connection.log, Effective(tx, transaction))
      ensures SqlExpression.Where(h, exp).Throws? ==>
        r == Throws(SqlExpression.Where(h, exp).exception) && connection.log == old(connection.log)
      ensures SqlExpression.Where(h, exp).Ok? ==>
        connection.log == old(connection.log)
          + [RoundTrip(Query, Statements.CountByExpression(m.entityTypeName, SqlExpression.Where(h, exp).value), NoParam, Effective(tx, transaction))]
        && r == Ok(connection.reply(connection.log))
    {
      r := dapper.CountByExpression(connection, h, m, exp, Effective(tx, transaction));
    }

    method CountBySql(m: ClassMap, sql: Statements.NullableString, where: Statements.NullableString, tx: Option<Tx>) returns (n: int)
      modifies connection
      ensures connection.log == old(connection.log) + [RoundTrip(Query, Statements.CountText(m.entityTypeName, sql, where), NoParam, Effective(tx, transaction))]
      ensures n == connection.reply(connection.log)
      ensures RoundTripsIn(old(connection.log), connection.log, Effective(tx, transaction))
    {
      n := dapper.CountBySql(connection, m, sql, where, Effective(tx, transaction));
    }

    method GetMultiple(items: seq<MultipleItem>, tx: Option<Tx>) returns (readers: seq<int>)
      modifies connection
      ensures dapper.generator.supportsMultipleStatements ==>
        connection.log == old(connection.log) + [RoundTrip(QueryMultiple, Batch(dapper.generator, items).sql, Dynamic(Batch(dapper.generator, items).parameters), Effective(tx, transaction))]
        && readers == [connection.reply(connection.log)]
      ensures !dapper.generator.supportsMultipleStatements ==>
        connection.log == old(connection.log) + SequenceTrips(dapper.generator, items, Effective(tx, transaction)) && |readers| == |items|
        && forall i :: 0 <= i < |items| ==> readers[i] == connection.reply(connection.log[..|old(connection.log)| + i + 1])
      ensures RoundTripsIn(old(connection.log), connection.log, Effective(tx, transaction))
    {
      readers := dapper.GetMultiple(connection, items, Effective(tx, transaction));
    }

    method PagedQuery(sql: Statements.NullableString, orderBy: Statements.NullableString, pageIndex: int, pageSize: int,
                      tx: Option<Tx>) returns (n: int)
      modifies connection
      ensures connection.log == old(connection.log) + [RoundTrip(Query, Statements.PagedQuery(sql, orderBy, pageIndex, pageSize), NoParam, Effective(tx, transaction))]
      ensures n == connection.reply(connection.log)
      ensures RoundTripsIn(old(connection.log), connection.log, Effective(tx, transaction))
    {
      n := dapper.PagedQuery(connection, sql, orderBy, pageIndex, pageSize, Effective(tx, transaction));
    }

    method TypedPagedQuery(sql: Statements.NullableString, orderBy: Statements.NullableString, pageIndex: int, pageSize: int,
                           tx: Option<Tx>) returns (n: int)
      requires Statements.IsInt32(pageIndex) && Statements.IsInt32(pageSize)
      modifies connection
      ensures connection.log == old(connection.log) + [RoundTrip(Query, Statements.TypedPagedQuery(sql, orderBy, pageIndex, pageSize), NoParam, Effective(tx, transaction))]
      ensures n == connection.reply(connection.log)
      ensures RoundTripsIn(old(connection.log), connection.log, Effective(tx, transaction))
    {
      n := dapper.TypedPagedQuery(connection, sql, orderBy, pageIndex, pageSize, Effective(tx, transaction));
    }

    /** The four Where overloads pass only the explicit transaction. */
    method WhereByExpression(h: SqlExpression.Host, m: ClassMap, exp: SqlExpression.Lambda, orderBy: Statements.NullableString,
                             tx: Option<Tx>) returns (r: Result<int>)
      modifies connection
      ensures RoundTripsIn(old(connection.log), connection.log, tx)
      ensures SqlExpression.Where(h, exp).Throws? ==>
        r == Throws(SqlExpression.Where(h, exp).exception) && connection.log == old(connection.log)
      ensures SqlExpression.Where(h, exp).Ok? ==>
        var o := Statements.OrderByOrDefault(orderBy, dapper.generator.getOrderBy(m));
        connection.log == old(connection.log)
          + [RoundTrip(Query, Statements.WhereByExpression(m.entityTypeName, SqlExpression.Where(h, exp).value, o), NoParam, tx)]
        && r == Ok(connection.reply(connection.log))
    {
      r := dapper.WhereByExpression(connection, h, m, exp, orderBy, tx);
    }

    method WhereByText(m: ClassMap, where: Statements.NullableString, orderBy: Statements.NullableString, tx: Option<Tx>)
      returns (n: int)
      modifies connection
      ensures var o := Statements.OrderByOrDefault(orderBy, dapper.generator.getOrderBy(m));
        connection.log == old(connection.log) + [RoundTrip(Query, Statements.WhereByText(m.entityTypeName, where, o), NoParam, tx)]
        && n == connection.reply(connection.log)
      ensures RoundTripsIn(old(connection.log), connection.log, tx)
    {
      n := dapper.WhereByText(connection, m, where, orderBy, tx);
    }

    method PagedWhereByText(m: ClassMap, where: Statements.NullableString, orderBy: Statements.NullableString,
                            pageIndex: int, pageSize: int, tx: Option<Tx>) returns (n: int)
      modifies connection
      ensures var o := Statements.OrderByOrDefault(orderBy, dapper.generator.getOrderBy(m));
        connection.log == old(connection.log)
          + [RoundTrip(Query, Statements.PagedWhereByText(m.entityTypeName, where, o, pageIndex, pageSize), NoParam, tx)]
        && n == connection.reply(connection.log)
      ensures RoundTripsIn(old(connection.log), connection.log, tx)
    {
      n := dapper.PagedWhereByText(connection, m, where, orderBy, pageIndex, pageSize, tx);
    }

    method PagedWhereByExpression(h: SqlExpression.Host, m: ClassMap, exp: SqlExpression.Lambda, orderBy: Statements.NullableString,
                                  pageIndex: int, pageSize: int, tx: Option<Tx>) returns (r: Result<int>)
      modifies connection
      ensures RoundTripsIn(old(connection.log), connection.log, tx)
      ensures SqlExpression.Where(h, exp).Throws? ==>
        r == Throws(SqlExpression.Where(h, exp).exception) && connection.log == old(connection.log)
      ensures SqlExpression.Where(h, exp).Ok? ==>
        connection.log == old(connection.log)
          + [RoundTrip(Query, Statements.PagedWhereByExpression(m.entityTypeName, SqlExpression.Where(h, exp).value,
                                                                 orderBy, pageIndex, pageSize), NoParam, tx)]
        && r == Ok(connection.reply(connection.log))
    {
      r := dapper.PagedWhereByExpression(connection, h, m, exp, orderBy, pageIndex, pageSize, tx);
    }
  }

  // ---------------------------------------------------------------------
  // Properties of RunInTransaction

  function Works(sqls: seq<string>): seq<Step> {
    seq(|sqls|, i requires 0 <= i < |sqls| => Work(sqls[i]))
  }

  function WorkTrips(sqls: seq<string>, tx: Option<Tx>): seq<Event> {
    seq(|sqls|, i requires 0 <= i < |sqls| => RoundTrip(Execute, sqls[i], NoParam, tx))
  }

  /** Plain work runs every statement in the ambient transaction, which it
      leaves as it found it. */
  lemma {:induction false} ActionOfWork(s: Ambient, sqls: seq<string>, rest: seq<Step>)
    ensures ActionSpec(s, Works(sqls) + rest) ==
      ActionSpec(Ambient(s.transaction, s.transactions, s.log + WorkTrips(sqls, s.transaction)), rest)
    decreases |sqls|
  {
    if |sqls| == 0 {
      assert Works(sqls) + rest == rest;
      assert s.log + WorkTrips(sqls, s.transaction) == s.log;
    } else {
      var s1 := Ambient(s.transaction, s.transactions, s.log + [RoundTrip(Execute, sqls[0], NoParam, s.transaction)]);
      assert (Works(sqls) + rest)[0] == Work(sqls[0]);
      assert (Works(sqls) + rest)[1..] == Works(sqls[1..]) + rest;
      ActionOfWork(s1, sqls[1..], rest);
      assert s1.log + WorkTrips(sqls[1..], s.transaction) == s.log + WorkTrips(sqls, s.transaction);
    }
  }

  /** An action that only does work is committed in the new transaction. */
  lemma RunPlainWorkCommits(s: Ambient, sqls: seq<string>)
    ensures var t := Tx(s.transactions);
      RunSpec(s, Works(sqls)) ==
        (Ok(()), Ambient(None, s.transactions + 1,
                         s.log + [TransactionBegun(t)] + WorkTrips(sqls, Some(t)) + [TransactionCommitted(t)]))
  {
    ActionOfWork(BeginSpec(s), sqls, []);
    assert Works(sqls) + [] == Works(sqls);
  }

  /** An action that throws after some work is rolled back and its
      exception rethrown. */
  lemma RunRaiseRollsBack(s: Ambient, sqls: seq<string>, e: Exception, rest: seq<Step>)
    ensures var t := Tx(s.transactions);
      RunSpec(s, Works(sqls) + ([Raise(e)] + rest)) ==
        (Throws(e), Ambient(None, s.transactions + 1,
                            s.log + [TransactionBegun(t)] + WorkTrips(sqls, Some(t)) + [TransactionRolledBack(t)]))
  {
    ActionOfWork(BeginSpec(s), sqls, [Raise(e)] + rest);
  }

  /** An action that commits the transaction itself makes the final Commit
      fail with the null dereference, and nothing is rolled back. */
  lemma RunSelfCommitFails(s: Ambient, sqls: seq<string>)
    ensures var t := Tx(s.transactions);
      RunSpec(s, Works(sqls) + [CommitStep]) ==
        (Throws(NullReference), Ambient(None, s.transactions + 1,
                                        s.log + [TransactionBegun(t)] + WorkTrips(sqls, Some(t)) + [TransactionCommitted(t)]))
  {
    ActionOfWork(BeginSpec(s), sqls, [CommitStep]);
  }

  /** The callback fails only by raising or by the null dereference. */
  lemma {:induction false} ActionFaults(s: Ambient, steps: seq<Step>)
    ensures ActionSpec(s, steps).0.Throws? ==>
      ActionSpec(s, steps).0.exception == NullReference || Raise(ActionSpec(s, steps).0.exception) in steps
    decreases |steps|
  {
    if |steps| > 0 {
      var (r, s1) := StepSpec(s, steps[0]);
      if r.Ok? {
        ActionFaults(s1, steps[1..]);
        assert forall x :: x in steps[1..] ==> x in steps;
      }
    }
  }

  /** RunInTransaction rethrows only what the action raised or the null
      dereference of a commit or rollback with no active transaction. */
  lemma RunFaults(s: Ambient, steps: seq<Step>)
    ensures RunSpec(s, steps).0.Throws? ==>
      RunSpec(s, steps).0.exception == NullReference || Raise(RunSpec(s, steps).0.exception) in steps
  {
    ActionFaults(BeginSpec(s), steps);
  }

  /** DeleteById as written: with an explicit transaction and none ambient,
      the delete runs outside the caller's transaction. */
  lemma DeleteByIdIgnoresExplicit(t: Tx)
    ensures Effective(Some(t), None) == Some(t)
    ensures forall before, after: seq<Event> :: RoundTripsIn(before, after, None) && |after| > |before| ==>
      !RoundTripsIn(before, after, Some(t))
  {
    forall before, after: seq<Event> | RoundTripsIn(before, after, None) && |after| > |before|
      ensures !RoundTripsIn(before, after, Some(t))
    {
      assert after[|before|].tx == None;
    }
  }

  /** DeleteById as written, called with an explicit transaction and none
      ambient: a valid id sends the delete, and it runs outside the
      caller's transaction; an invalid id sends nothing. */
  method DeleteByIdOutsideExplicit(db: Database, m: ClassMap, id: IdArg, t: Tx) returns (r: Result<bool>)
    requires db.transaction == None
    modifies db.connection
    ensures IdPredicate(m, id).Ok? ==>
      |db.connection.log| == |old(db.connection.log)| + 1
      && !RoundTripsIn(old(db.connection.log), db.connection.log, Some(t))
    ensures IdPredicate(m, id).Throws? ==>
      r == Throws(IdPredicate(m, id).exception) && db.connection.log == old(db.connection.log)
  {
    r := db.DeleteById(m, id, Some(t));
    DeleteByIdIgnoresExplicit(t);
  }
}
