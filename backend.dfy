/** What the CRUD layer calls but does not define: the ADO connection and
    its transactions (recorded as a log of events, with abstract replies),
    the dialect's SQL generator (abstract text templates), the GUID
    generator, and the entity objects whose properties it writes. */
module Backend {
  import opened Clr
  import opened Wrappers
  import opened Predicates

  /** An IDbTransaction handle; handles from different BeginTransaction
      calls are different. */
  datatype Tx = Tx(id: nat)

  datatype ConnectionState = Closed | Open | Connecting | Executing | Fetching | Broken

  /** The parameter object handed to Dapper. */
  datatype Param =
    | NoParam                          // null
    | EntityParam(entity: Row)         // one entity, read through its properties
    | EntitiesParam(entities: seq<Row>) // a collection, executed once per element
    | Dynamic(values: Row)             // a DynamicParameters bag

  datatype Command = Execute | Query | QueryMultiple

  /** Everything the connection observes, in order. */
  datatype Event =
    | RoundTrip(command: Command, sql: string, param: Param, tx: Option<Tx>)
    | ConnectionOpened
    | ConnectionClosed
    | TransactionBegun(begun: Tx)
    | TransactionCommitted(committed: Tx)
    | TransactionRolledBack(rolledBack: Tx)

  /** The events after `before` in `after` are round trips, each enlisted in `tx`. */
  predicate RoundTripsIn(before: seq<Event>, after: seq<Event>, tx: Option<Tx>) {
    |before| <= |after| && after[..|before|] == before
    && forall k :: |before| <= k < |after| ==> after[k].RoundTrip? && after[k].tx == tx
  }

  /** An IDbConnection. The database's answers are an oracle of the log so
      far: the rows affected by an Execute, the scalar of a Query<int>, an
      opaque handle for the rows of other queries and readers. */
  class Connection {
    var state: ConnectionState
    var log: seq<Event>
    var transactions: nat
    const reply: seq<Event> -> int

    constructor (initial: ConnectionState, reply: seq<Event> -> int)
      ensures state == initial && log == [] && transactions == 0 && this.reply == reply
    {
      state := initial;
      log := [];
      transactions := 0;
      this.reply := reply;
    }

    /** One Dapper call: a statement sent to the database. */
    method Run(command: Command, sql: string, param: Param, tx: Option<Tx>) returns (n: int)
      modifies this
      ensures log == old(log) + [RoundTrip(command, sql, param, tx)]
      ensures n == reply(log)
      ensures state == old(state) && transactions == old(transactions)
    {
      log := log + [RoundTrip(command, sql, param, tx)];
      n := reply(log);
    }

    method Open()
      modifies this
      ensures state == ConnectionState.Open && log == old(log) + [ConnectionOpened]
      ensures transactions == old(transactions)
    {
      state := ConnectionState.Open;
      log := log + [ConnectionOpened];
    }

    method Close()
      modifies this
      ensures state == ConnectionState.Closed && log == old(log) + [ConnectionClosed]
      ensures transactions == old(transactions)
    {
      state := ConnectionState.Closed;
      log := log + [ConnectionClosed];
    }

    /** BeginTransaction: a new handle, distinct from every earlier one. */
    method BeginTransaction() returns (t: Tx)
      modifies this
      ensures t == Tx(old(transactions)) && transactions == old(transactions) + 1
      ensures log == old(log) + [TransactionBegun(t)]
      ensures state == old(state)
    {
      t := Tx(transactions);
      transactions := transactions + 1;
      log := log + [TransactionBegun(t)];
    }

    /** `t.Commit()`. */
    method Commit(t: Tx)
      modifies this
      ensures log == old(log) + [TransactionCommitted(t)]
      ensures state == old(state) && transactions == old(transactions)
    {
      log := log + [TransactionCommitted(t)];
    }

    /** `t.Rollback()`. */
    method Rollback(t: Tx)
      modifies this
      ensures log == old(log) + [TransactionRolledBack(t)]
      ensures state == old(state) && transactions == old(transactions)
    {
      log := log + [TransactionRolledBack(t)];
    }
  }

  /** An ISort. */
  datatype Sort = Sort(propertyName: string, ascending: bool)

  /** A generated statement with the parameter dictionary after generation. */
  datatype Statement = Statement(sql: string, parameters: Row)

  /** ISqlGenerator and its configuration. The templates take the parameter
      dictionary in its current state and return it with the statement's
      parameters added. */
  datatype SqlGenerator = SqlGenerator(
    select: (ClassMap, Option<Predicate>, Option<seq<Sort>>, Row) -> Statement,
    selectPaged: (ClassMap, Option<Predicate>, Option<seq<Sort>>, int, int, Row) -> Statement,
    selectSet: (ClassMap, Option<Predicate>, Option<seq<Sort>>, int, int, Row) -> Statement,
    count: (ClassMap, Option<Predicate>, Row) -> Statement,
    insert: ClassMap -> string,
    update: (ClassMap, Predicate, Row) -> Statement,
    delete: (ClassMap, Option<Predicate>, Row) -> Statement,
    identitySql: ClassMap -> string,
    getOrderBy: ClassMap -> string,
    supportsMultipleStatements: bool,
    batchSeparator: string)

  /** Configuration.GetNextGuid: every value is new and none is Guid.Empty. */
  class GuidSource {
    var issued: set<nat>
    var next: nat

    ghost predicate Valid()
      reads this
    {
      0 < next && 0 !in issued && forall g :: g in issued ==> g < next
    }

    constructor ()
      ensures Valid() && issued == {}
    {
      issued := {};
      next := 1;
    }

    method Next() returns (g: nat)
      requires Valid()
      modifies this
      ensures Valid()
      ensures g != 0 && g !in old(issued) && issued == old(issued) + {g}
    {
      g := next;
      issued := issued + {g};
      next := next + 1;
    }
  }

  /** An entity object: its properties, written in place through reflection. */
  class Entity {
    var fields: Row

    constructor (fields: Row)
      ensures this.fields == fields
    {
      this.fields := fields;
    }
  }
}
