/** DapperImplementor: each CRUD operation builds its predicate and its
    statement text, asks the dialect's generator for what it does not format
    itself, and hands the result to the connection. Every operation runs
    its round trips in the transaction it is given. */
module Implementor {
  import opened Clr
  import opened Wrappers
  import opened Predicates
  import opened Backend
  import Statements
  import SqlExpression

  /** What the single Insert returns: the one key value bare, or every key
      by name (an ExpandoObject), identity first. */
  datatype KeyValues = Bare(value: Value) | Dictionary(entries: Record)

  /** An item of a GetMultiplePredicate: the item type's map, its filter
      (null, an IPredicate or a template) and its sort list. */
  datatype MultipleItem = MultipleItem(classMap: ClassMap, filter: Filter, sort: Option<seq<Sort>>)

  predicate IsIdentity(p: PropertyMap) {
    p.keyType == Identity
  }

  predicate IsGuidOrAssigned(p: PropertyMap) {
    p.keyType == Guid || p.keyType == Assigned
  }

  /** Neither ignored, nor read-only, nor an identity: the columns an
      entity update writes. */
  predicate IsUpdatable(p: PropertyMap) {
    !(p.ignored || p.readOnly || p.keyType == Identity)
  }

  function Identities(m: ClassMap): seq<PropertyMap> {
    PropertiesWhere(m.properties, IsIdentity)
  }

  function NonIdentityKeys(m: ClassMap): seq<PropertyMap> {
    PropertiesWhere(m.properties, IsGuidOrAssigned)
  }

  /** The names of the Guid columns among `columns`. */
  function GuidNames(columns: seq<PropertyMap>): set<string> {
    set c | c in columns && c.keyType == Guid :: c.name
  }

  /** `after` is `before` with every name in `names` holding a GUID taken
      from `pool`, none of them Guid.Empty and no two alike, and nothing
      else changed. */
  predicate GuidsAssigned(names: set<string>, before: Row, after: Row, pool: set<nat>) {
    && after.Keys == before.Keys + names
    && (forall n :: n in before && n !in names ==> after[n] == before[n])
    && (forall n :: n in names ==> after[n].GuidValue? && after[n].g in pool && after[n].g != 0)
    && (forall n, k :: n in names && k in names && n != k ==> after[n] != after[k])
  }

  /** One more column receives a GUID new to the pool. */
  lemma GuidsAssignedStep(names: set<string>, before: Row, middle: Row, pool: set<nat>, name: string, g: nat)
    requires GuidsAssigned(names, before, middle, pool)
    requires g != 0 && g !in pool
    ensures GuidsAssigned(names + {name}, before, middle[name := GuidValue(g)], pool + {g})
  {
    var after := middle[name := GuidValue(g)];
    forall n, k | n in names + {name} && k in names + {name} && n != k
      ensures after[n] != after[k]
    {
      if n != name && k != name {
        assert after[n] == middle[n] && after[k] == middle[k];
      }
    }
  }

  /** No value `a` holds under `names` is held by `b` under `names`. */
  predicate GuidsDisjoint(names: set<string>, a: Row, b: Row) {
    forall n, k :: n in names && k in names && n in a && k in b ==> a[n] != b[k]
  }

  /** The collection loop after `i` entities: those entities hold GUIDs
      from `pool`, pairwise distinct, and the rest are untouched. */
  ghost predicate GuidProgress(names: set<string>, entities: seq<Entity>, i: nat, initial: map<Entity, Row>, pool: set<nat>)
    requires i <= |entities| && forall e :: e in entities ==> e in initial
    reads set e | e in entities
  {
    && (forall e :: e in entities[..i] ==> GuidsAssigned(names, initial[e], e.fields, pool))
    && (forall e :: e in entities && e !in entities[..i] ==> e.fields == initial[e])
    && (forall e1, e2 :: e1 in entities[..i] && e2 in entities[..i] && e1 != e2 ==> GuidsDisjoint(names, e1.fields, e2.fields))
  }

  lemma GuidsAssignedWider(names: set<string>, before: Row, after: Row, pool: set<nat>, wider: set<nat>)
    requires GuidsAssigned(names, before, after, pool) && pool <= wider
    ensures GuidsAssigned(names, before, after, wider)
  {
  }

  /** GUIDs drawn from disjoint pools never coincide. */
  lemma DisjointPools(names: set<string>, a: Row, b: Row, pa: set<nat>, pb: set<nat>)
    requires forall n :: n in names && n in a ==> a[n].GuidValue? && a[n].g in pa
    requires forall k :: k in names && k in b ==> b[k].GuidValue? && b[k].g in pb
    requires pa !! pb
    ensures GuidsDisjoint(names, a, b) && GuidsDisjoint(names, b, a)
  {
    forall n, k | n in names && k in names && n in a && k in b
      ensures a[n] != b[k] && b[k] != a[n]
    {
      assert a[n].g in pa && b[k].g in pb;
    }
  }

  lemma GuidsAssignedAgain(names: set<string>, before: Row, middle: Row, after: Row, f1: set<nat>, f2: set<nat>)
    requires GuidsAssigned(names, before, middle, f1) && GuidsAssigned(names, middle, after, f2)
    ensures GuidsAssigned(names, before, after, f1 + f2)
  {
  }

  /** A property's value, read through reflection. */
  function Get(fields: Row, name: string): Value {
    if name in fields then fields[name] else Null
  }

  function Snapshot(entities: seq<Entity>): seq<Row>
    reads set e | e in entities
  {
    if |entities| == 0 then [] else Snapshot(entities[..|entities| - 1]) + [entities[|entities| - 1].fields]
  }

  /** The round trips of the single Insert, given the entity after its
      GUIDs are assigned. */
  function InsertTrips(g: SqlGenerator, m: ClassMap, entity: Row, tx: Option<Tx>): seq<Event> {
    var insert := g.insert(m);
    if |Identities(m)| == 0 then [RoundTrip(Execute, insert, EntityParam(entity), tx)]
    else if g.supportsMultipleStatements then
      [RoundTrip(Query, insert + g.batchSeparator + g.identitySql(m), EntityParam(entity), tx)]
    else
      [RoundTrip(Execute, insert, EntityParam(entity), tx), RoundTrip(Query, g.identitySql(m), EntityParam(entity), tx)]
  }

  /** The entity after the fetched identity is written back. */
  function WithIdentity(m: ClassMap, fields: Row, identity: int): Row {
    if |Identities(m)| == 1 then fields[Identities(m)[0].name := Int(identity)] else fields
  }

  /** The keyValues dictionary: the identity first, then the Guid and
      Assigned keys in map order, read from the entity. */
  function KeyEntries(m: ClassMap, fields: Row, identity: int): Record {
    var keys := NonIdentityKeys(m);
    (if |Identities(m)| == 1 then [(Identities(m)[0].name, Int(identity))] else [])
      + seq(|keys|, i requires 0 <= i < |keys| => (keys[i].name, Get(fields, keys[i].name)))
  }

  /** `keyValues.Count == 1 ? keyValues.First().Value : keyValues`. */
  function Returned(entries: Record): KeyValues {
    if |entries| == 1 then Bare(entries[0].1) else Dictionary(entries)
  }

  /** The columns of an entity update: the entity's values for updatable
      columns, then the generator's parameters, which win on a clash. */
  function UpdateParameters(m: ClassMap, fields: Row, generated: Row): Row {
    (map n | n in fields && exists p :: p in m.properties && IsUpdatable(p) && p.name == n :: fields[n]) + generated
  }

  /** GetMultipleByBatch's text and shared parameters: each item's select
      followed by the separator, one per line, in item order. */
  function Batch(g: SqlGenerator, items: seq<MultipleItem>): Statement
    decreases |items|
  {
    if |items| == 0 then Statement("", map[])
    else
      var prev := Batch(g, items[..|items| - 1]);
      var item := items[|items| - 1];
      var st := g.select(item.classMap, GetPredicate(item.filter), item.sort, prev.parameters);
      Statement(prev.sql + st.sql + g.batchSeparator + "\r\n", st.parameters)
  }

  /** GetMultipleBySequence's round trips: one reader per item, in order,
      each with its own parameters. */
  function SequenceTrips(g: SqlGenerator, items: seq<MultipleItem>, tx: Option<Tx>): seq<Event> {
    seq(|items|, i requires 0 <= i < |items| =>
      var st := g.select(items[i].classMap, GetPredicate(items[i].filter), items[i].sort, map[]);
      RoundTrip(QueryMultiple, st.sql, Dynamic(st.parameters), tx))
  }

  class DapperImplementor {
    const generator: SqlGenerator
    const guids: GuidSource

    constructor (generator: SqlGenerator, guids: GuidSource)
      ensures this.generator == generator && this.guids == guids
    {
      this.generator := generator;
      this.guids := guids;
    }

    /** Get by id: the id predicate, then the generator's select. */
    method GetById(conn: Connection, m: ClassMap, id: IdArg, tx: Option<Tx>) returns (r: Result<int>)
      modifies conn
      ensures RoundTripsIn(old(conn.log), conn.log, tx)
      ensures IdPredicate(m, id).Throws? ==> r == Throws(IdPredicate(m, id).exception) && conn.log == old(conn.log)
      ensures IdPredicate(m, id).Ok? ==>
        var st := generator.select(m, Some(IdPredicate(m, id).value), None, map[]);
        conn.log == old(conn.log) + [RoundTrip(Query, st.sql, Dynamic(st.parameters), tx)]
        && r == Ok(conn.reply(conn.log))
    {
      var p := GetIdPredicate(m, id);
      if p.Throws? {
        return Throws(p.exception);
      }
      var n := GetList(conn, m, Some(p.value), None, tx);
      r := Ok(n);
    }

    /** Get by expression: the compiled condition in a plain select. */
    method GetByExpression(conn: Connection, h: SqlExpression.Host, m: ClassMap, exp: SqlExpression.Lambda, tx: Option<Tx>)
      returns (r: Result<int>)
      modifies conn
      ensures RoundTripsIn(old(conn.log), conn.log, tx)
      ensures SqlExpression.Where(h, exp).Throws? ==>
        r == Throws(SqlExpression.Where(h, exp).exception) && conn.log == old(conn.log)
      ensures SqlExpression.Where(h, exp).Ok? ==>
        conn.log == old(conn.log)
          + [RoundTrip(Query, Statements.SelectByExpression(m.entityTypeName, SqlExpression.Where(h, exp).value), NoParam, tx)]
        && r == Ok(conn.reply(conn.log))
    {
      var c := SqlExpression.Where(h, exp);
      if c.Throws? {
        return Throws(c.exception);
      }
      var n := conn.Run(Query, Statements.SelectByExpression(m.entityTypeName, c.value), NoParam, tx);
      r := Ok(n);
    }

    /** The Guid columns among `columns` each receive a new GUID. */
    method AssignGuids(columns: seq<PropertyMap>, e: Entity)
      requires guids.Valid()
      modifies guids, e
      ensures guids.Valid() && old(guids.issued) <= guids.issued
      ensures GuidsAssigned(GuidNames(columns), old(e.fields), e.fields, guids.issued - old(guids.issued))
    {
      for j := 0 to |columns|
        invariant guids.Valid() && old(guids.issued) <= guids.issued
        invariant GuidsAssigned(GuidNames(columns[..j]), old(e.fields), e.fields, guids.issued - old(guids.issued))
      {
        assert columns[..j + 1] == columns[..j] + [columns[j]];
        if columns[j].keyType == Guid {
          ghost var pool := guids.issued - old(guids.issued);
          var g := guids.Next();
          GuidsAssignedStep(GuidNames(columns[..j]), old(e.fields), e.fields, pool, columns[j].name, g);
          e.fields := e.fields[columns[j].name := GuidValue(g)];
          assert guids.issued - old(guids.issued) == pool + {g};
          assert GuidNames(columns[..j + 1]) == GuidNames(columns[..j]) + {columns[j].name};
        } else {
          assert GuidNames(columns[..j + 1]) == GuidNames(columns[..j]);
        }
      }
      assert columns[..|columns|] == columns;
    }

    /** Insert of a collection: every Guid key of every entity is
        overwritten, then one Execute runs the insert for the whole
        collection. */
    method InsertAll(conn: Connection, m: ClassMap, entities: seq<Entity>, tx: Option<Tx>)
      requires guids.Valid()
      modifies conn, guids, set e | e in entities
      ensures guids.Valid() && old(guids.issued) <= guids.issued
      ensures forall e :: e in entities ==>
        GuidsAssigned(GuidNames(Keys(m)), old(e.fields), e.fields, guids.issued - old(guids.issued))
      ensures forall e1, e2 :: e1 in entities && e2 in entities && e1 != e2 ==>
        GuidsDisjoint(GuidNames(Keys(m)), e1.fields, e2.fields)
      ensures conn.log == old(conn.log) + [RoundTrip(Execute, generator.insert(m), EntitiesParam(Snapshot(entities)), tx)]
      ensures RoundTripsIn(old(conn.log), conn.log, tx)
    {
      var properties := Keys(m);
      AssignAllGuids(properties, entities);
      var sql := generator.insert(m);
      var _ := conn.Run(Execute, sql, EntitiesParam(Snapshot(entities)), tx);
    }

    /** The Guid columns among `columns` receive a new GUID on every entity
        of the collection, in collection order. */
    method AssignAllGuids(columns: seq<PropertyMap>, entities: seq<Entity>)
      requires guids.Valid()
      modifies guids, set e | e in entities
      ensures guids.Valid() && old(guids.issued) <= guids.issued
      ensures forall e :: e in entities ==>
        GuidsAssigned(GuidNames(columns), old(e.fields), e.fields, guids.issued - old(guids.issued))
      ensures forall e1, e2 :: e1 in entities && e2 in entities && e1 != e2 ==>
        GuidsDisjoint(GuidNames(columns), e1.fields, e2.fields)
    {
      ghost var initial := map e | e in entities :: e.fields;
      for i := 0 to |entities|
        invariant guids.Valid() && old(guids.issued) <= guids.issued
        invariant forall e :: e in entities ==> e in initial && initial[e] == old(e.fields)
        invariant GuidProgress(GuidNames(columns), entities, i, initial, guids.issued - old(guids.issued))
      {
        AssignEntityGuids(columns, entities, i, initial, old(guids.issued));
      }
      assert entities[..|entities|] == entities;
    }

    /** One iteration of the collection loop: entity i gets its GUIDs. */
    method AssignEntityGuids(columns: seq<PropertyMap>, entities: seq<Entity>, i: nat,
                             ghost initial: map<Entity, Row>, ghost start: set<nat>)
      requires i < |entities| && guids.Valid() && start <= guids.issued
      requires forall e :: e in entities ==> e in initial
      requires GuidProgress(GuidNames(columns), entities, i, initial, guids.issued - start)
      modifies guids, entities[i]
      ensures guids.Valid() && start <= guids.issued
      ensures GuidProgress(GuidNames(columns), entities, i + 1, initial, guids.issued - start)
    {
      ghost var names := GuidNames(columns);
      var e := entities[i];
      ghost var middle := e.fields;
      ghost var issued := guids.issued;
      AssignGuids(columns, e);
      var pool := guids.issued - start;
      if e in entities[..i] {
        GuidsAssignedAgain(names, initial[e], middle, e.fields, issued - start, guids.issued - issued);
        assert (issued - start) + (guids.issued - issued) == pool;
      } else {
        GuidsAssignedWider(names, initial[e], e.fields, guids.issued - issued, pool);
      }
      assert entities[..i + 1] == entities[..i] + [e];
      forall d | d in entities[..i + 1]
        ensures GuidsAssigned(names, initial[d], d.fields, pool)
      {
        if d != e {
          GuidsAssignedWider(names, initial[d], d.fields, issued - start, pool);
        }
      }
      forall d | d in entities && d !in entities[..i + 1]
        ensures d.fields == initial[d]
      {
      }
      forall e1, e2 | e1 in entities[..i + 1] && e2 in entities[..i + 1] && e1 != e2
        ensures GuidsDisjoint(names, e1.fields, e2.fields)
      {
        if e1 == e {
          DisjointPools(names, e1.fields, e2.fields, guids.issued - issued, issued);
        } else if e2 == e {
          DisjointPools(names, e2.fields, e1.fields, guids.issued - issued, issued);
        } else {
          assert e1 in entities[..i] && e2 in entities[..i];
          assert GuidsDisjoint(names, old(e1.fields), old(e2.fields));
          assert e1.fields == old(e1.fields) && e2.fields == old(e2.fields);
        }
      }
      assert GuidProgress(names, entities, i + 1, initial, pool);
    }

    /** The keyValues loop over the Guid and Assigned keys. */
    method CollectKeys(m: ClassMap, fields: Row, first: Record) returns (entries: Record)
      ensures entries == first + seq(|NonIdentityKeys(m)|, i requires 0 <= i < |NonIdentityKeys(m)| =>
        (NonIdentityKeys(m)[i].name, Get(fields, NonIdentityKeys(m)[i].name)))
    {
      var keys := NonIdentityKeys(m);
      entries := first;
      for i := 0 to |keys|
        invariant entries == first + seq(i, k requires 0 <= k < i => (keys[k].name, Get(fields, keys[k].name)))
      {
        entries := entries + [(keys[i].name, Get(fields, keys[i].name))];
      }
    }

    /** Insert of one entity: SingleOrDefault on the identity column, GUIDs
        for the Guid keys, the insert with the identity fetched in the same
        round trip when the dialect allows several statements and in a
        second one otherwise, the identity written back, and the keys
        returned. */
    method InsertOne(conn: Connection, m: ClassMap, entity: Entity, tx: Option<Tx>) returns (r: Result<KeyValues>)
      requires guids.Valid()
      modifies conn, guids, entity
      ensures guids.Valid() && old(guids.issued) <= guids.issued
      ensures RoundTripsIn(old(conn.log), conn.log, tx)
      ensures |Identities(m)| > 1 ==>
        r == Throws(InvalidOperation) && conn.log == old(conn.log)
        && entity.fields == old(entity.fields) && guids.issued == old(guids.issued)
      ensures |Identities(m)| <= 1 ==> exists written: Row ::
        && GuidsAssigned(GuidNames(NonIdentityKeys(m)), old(entity.fields), written, guids.issued - old(guids.issued))
        && conn.log == old(conn.log) + InsertTrips(generator, m, written, tx)
        && entity.fields == WithIdentity(m, written, conn.reply(conn.log))
        && r == Ok(Returned(KeyEntries(m, entity.fields, conn.reply(conn.log))))
    {
      var nonIdentityKeyProperties := NonIdentityKeys(m);
      var identities := Identities(m);
      if |identities| > 1 {
        return Throws(InvalidOperation);
      }
      AssignGuids(nonIdentityKeyProperties, entity);
      ghost var written := entity.fields;
      var identityValue := RunInsert(conn, m, entity.fields, tx);
      var first: Record := [];
      if |identities| == 1 {
        first := [(identities[0].name, Int(identityValue))];
        entity.fields := entity.fields[identities[0].name := Int(identityValue)];
      }
      var keyValues := CollectKeys(m, entity.fields, first);
      r := Ok(Returned(keyValues));
      assert entity.fields == WithIdentity(m, written, conn.reply(conn.log));
      assert keyValues == KeyEntries(m, entity.fields, conn.reply(conn.log));
    }

    /** The insert's round trips: the insert alone when there is no
        identity, and otherwise the identity fetched in the same round trip
        when the dialect allows several statements and in a second one
        when it does not. The identity read is the last reply. */
    method RunInsert(conn: Connection, m: ClassMap, fields: Row, tx: Option<Tx>) returns (identityValue: int)
      requires |Identities(m)| <= 1
      modifies conn
      ensures conn.log == old(conn.log) + InsertTrips(generator, m, fields, tx)
      ensures |Identities(m)| == 1 ==> identityValue == conn.reply(conn.log)
      ensures RoundTripsIn(old(conn.log), conn.log, tx)
    {
      var sql := generator.insert(m);
      identityValue := 0;
      if |Identities(m)| == 1 {
        if generator.supportsMultipleStatements {
          sql := sql + generator.batchSeparator + generator.identitySql(m);
          identityValue := conn.Run(Query, sql, EntityParam(fields), tx);
        } else {
          var _ := conn.Run(Execute, sql, EntityParam(fields), tx);
          sql := generator.identitySql(m);
          identityValue := conn.Run(Query, sql, EntityParam(fields), tx);
        }
      } else {
        var _ := conn.Run(Execute, sql, EntityParam(fields), tx);
      }
    }

    /** Update of an entity: its key predicate, the generator's update, and
        the updatable columns with the generator's parameters; true when a
        row was affected. */
    method UpdateEntity(conn: Connection, m: ClassMap, entity: Entity, tx: Option<Tx>) returns (r: Result<bool>)
      requires Conforms(m, entity.fields)
      modifies conn
      ensures RoundTripsIn(old(conn.log), conn.log, tx)
      ensures KeyPredicate(m, entity.fields).Throws? ==>
        r == Throws(KeyPredicate(m, entity.fields).exception) && conn.log == old(conn.log)
      ensures KeyPredicate(m, entity.fields).Ok? ==>
        var st := generator.update(m, KeyPredicate(m, entity.fields).value, map[]);
        conn.log == old(conn.log) + [RoundTrip(Execute, st.sql, Dynamic(UpdateParameters(m, entity.fields, st.parameters)), tx)]
        && r == Ok(conn.reply(conn.log) > 0)
    {
      var key := KeyPredicate(m, entity.fields);
      if key.Throws? {
        return Throws(key.exception);
      }
      var st := generator.update(m, key.value, map[]);
      var n := conn.Run(Execute, st.sql, Dynamic(UpdateParameters(m, entity.fields, st.parameters)), tx);
      r := Ok(n > 0);
    }

    /** Update(updateDict, keyDict): the hand-built update statement. */
    method UpdateByDictionary(conn: Connection, show: Value -> string, m: ClassMap,
                              updates: Option<seq<Statements.Property>>, keys: Option<seq<Statements.Property>>, tx: Option<Tx>)
      returns (r: Result<int>)
      modifies conn
      ensures RoundTripsIn(old(conn.log), conn.log, tx)
      ensures updates.None? || keys.None? ==> r == Throws(NullReference) && conn.log == old(conn.log)
      ensures updates.Some? && keys.Some? ==>
        conn.log == old(conn.log)
          + [RoundTrip(Execute, Statements.UpdateText(show, m.entityTypeName, updates.value, keys.value), NoParam, tx)]
        && r == Ok(conn.reply(conn.log))
    {
      var sql := Statements.BuildUpdateStatement(show, m.entityTypeName, updates, keys);
      if sql.Throws? {
        return Throws(sql.exception);
      }
      var n := conn.Run(Execute, sql.value, NoParam, tx);
      r := Ok(n);
    }

    /** Update(sql): the caller's statement as it is. */
    method UpdateSql(conn: Connection, sql: string, tx: Option<Tx>) returns (n: int)
      modifies conn
      ensures conn.log == old(conn.log) + [RoundTrip(Execute, sql, NoParam, tx)] && n == conn.reply(conn.log)
      ensures RoundTripsIn(old(conn.log), conn.log, tx)
      ensures conn.state == old(conn.state) && conn.transactions == old(conn.transactions)
    {
      n := conn.Run(Execute, sql, NoParam, tx);
    }

    /** The protected Delete: the generator's delete; true when a row was affected. */
    method DeleteWhere(conn: Connection, m: ClassMap, p: Option<Predicate>, tx: Option<Tx>) returns (b: bool)
      modifies conn
      ensures var st := generator.delete(m, p, map[]);
        conn.log == old(conn.log) + [RoundTrip(Execute, st.sql, Dynamic(st.parameters), tx)]
        && b == (conn.reply(conn.log) > 0)
      ensures RoundTripsIn(old(conn.log), conn.log, tx)
    {
      var st := generator.delete(m, p, map[]);
      var n := conn.Run(Execute, st.sql, Dynamic(st.parameters), tx);
      b := n > 0;
    }

    /** Delete of an entity, by its key predicate. */
    method DeleteEntity(conn: Connection, m: ClassMap, entity: Entity, tx: Option<Tx>) returns (r: Result<bool>)
      requires Conforms(m, entity.fields)
      modifies conn
      ensures RoundTripsIn(old(conn.log), conn.log, tx)
      ensures KeyPredicate(m, entity.fields).Throws? ==>
        r == Throws(KeyPredicate(m, entity.fields).exception) && conn.log == old(conn.log)
      ensures KeyPredicate(m, entity.fields).Ok? ==>
        var st := generator.delete(m, Some(KeyPredicate(m, entity.fields).value), map[]);
        conn.log == old(conn.log) + [RoundTrip(Execute, st.sql, Dynamic(st.parameters), tx)]
        && r == Ok(conn.reply(conn.log) > 0)
    {
      var key := KeyPredicate(m, entity.fields);
      if key.Throws? {
        return Throws(key.exception);
      }
      var b := DeleteWhere(conn, m, Some(key.value), tx);
      r := Ok(b);
    }

    /** DeleteById: by the id predicate. */
    method DeleteById(conn: Connection, m: ClassMap, id: IdArg, tx: Option<Tx>) returns (r: Result<bool>)
      modifies conn
      ensures RoundTripsIn(old(conn.log), conn.log, tx)
      ensures IdPredicate(m, id).Throws? ==> r == Throws(IdPredicate(m, id).exception) && conn.log == old(conn.log)
      ensures IdPredicate(m, id).Ok? ==>
        var st := generator.delete(m, Some(IdPredicate(m, id).value), map[]);
        conn.log == old(conn.log) + [RoundTrip(Execute, st.sql, Dynamic(st.parameters), tx)]
        && r == Ok(conn.reply(conn.log) > 0)
    {
      var key := GetIdPredicate(m, id);
      if key.Throws? {
        return Throws(key.exception);
      }
      var b := DeleteWhere(conn, m, Some(key.value), tx);
      r := Ok(b);
    }

    /** Delete by predicate. */
    method DeleteByFilter(conn: Connection, m: ClassMap, f: Filter, tx: Option<Tx>) returns (b: bool)
      requires !f.Example?  // the parameter is an IPredicate, never a template
      modifies conn
      ensures var st := generator.delete(m, GetPredicate(f), map[]);
        conn.log == old(conn.log) + [RoundTrip(Execute, st.sql, Dynamic(st.parameters), tx)]
        && b == (conn.reply(conn.log) > 0)
      ensures RoundTripsIn(old(conn.log), conn.log, tx)
    {
      b := DeleteWhere(conn, m, GetPredicate(f), tx);
    }

    /** The protected GetList: the generator's select. */
    method GetList(conn: Connection, m: ClassMap, p: Option<Predicate>, sort: Option<seq<Sort>>, tx: Option<Tx>) returns (n: int)
      modifies conn
      ensures var st := generator.select(m, p, sort, map[]);
        conn.log == old(conn.log) + [RoundTrip(Query, st.sql, Dynamic(st.parameters), tx)] && n == conn.reply(conn.log)
      ensures RoundTripsIn(old(conn.log), conn.log, tx)
    {
      var st := generator.select(m, p, sort, map[]);
      n := conn.Run(Query, st.sql, Dynamic(st.parameters), tx);
    }

    /** The protected GetPage: the generator's paged select. */
    method GetPage(conn: Connection, m: ClassMap, f: Filter, sort: Option<seq<Sort>>, pageIndex: int, pageSize: int, tx: Option<Tx>)
      returns (n: int)
      requires !f.Example?  // the parameter is an IPredicate, never a template
      modifies conn
      ensures var st := generator.selectPaged(m, GetPredicate(f), sort, pageIndex, pageSize, map[]);
        conn.log == old(conn.log) + [RoundTrip(Query, st.sql, Dynamic(st.parameters), tx)] && n == conn.reply(conn.log)
      ensures RoundTripsIn(old(conn.log), conn.log, tx)
    {
      var st := generator.selectPaged(m, GetPredicate(f), sort, pageIndex, pageSize, map[]);
      n := conn.Run(Query, st.sql, Dynamic(st.parameters), tx);
    }

    /** The protected GetSet: the generator's ranged select. */
    method GetSet(conn: Connection, m: ClassMap, f: Filter, sort: Option<seq<Sort>>, firstResult: int, maxResults: int, tx: Option<Tx>)
      returns (n: int)
      requires !f.Example?  // the parameter is an IPredicate, never a template
      modifies conn
      ensures var st := generator.selectSet(m, GetPredicate(f), sort, firstResult, maxResults, map[]);
        conn.log == old(conn.log) + [RoundTrip(Query, st.sql, Dynamic(st.parameters), tx)] && n == conn.reply(conn.log)
      ensures RoundTripsIn(old(conn.log), conn.log, tx)
    {
      var st := generator.selectSet(m, GetPredicate(f), sort, firstResult, maxResults, map[]);
      n := conn.Run(Query, st.sql, Dynamic(st.parameters), tx);
    }

    /** Count by predicate (or template): the generator's count. */
    method CountByFilter(conn: Connection, m: ClassMap, f: Filter, tx: Option<Tx>) returns (n: int)
      requires !f.Example?  // the parameter is an IPredicate, never a template
      modifies conn
      ensures var st := generator.count(m, GetPredicate(f), map[]);
        conn.log == old(conn.log) + [RoundTrip(Query, st.sql, Dynamic(st.parameters), tx)] && n == conn.reply(conn.log)
      ensures RoundTripsIn(old(conn.log), conn.log, tx)
    {
      var st := generator.count(m, GetPredicate(f), map[]);
      n := conn.Run(Query, st.sql, Dynamic(st.parameters), tx);
    }

    /** Count by expression. */
    method CountByExpression(conn: Connection, h: SqlExpression.Host, m: ClassMap, exp: SqlExpression.Lambda, tx: Option<Tx>)
      returns (r: Result<int>)
      modifies conn
      ensures RoundTripsIn(old(conn.log), conn.log, tx)
      ensures SqlExpression.Where(h, exp).Throws? ==>
        r == Throws(SqlExpression.Where(h, exp).exception) && conn.log == old(conn.log)
      ensures SqlExpression.Where(h, exp).Ok? ==>
        conn.log == old(conn.log)
          + [RoundTrip(Query, Statements.CountByExpression(m.entityTypeName, SqlExpression.Where(h, exp).value), NoParam, tx)]
        && r == Ok(conn.reply(conn.log))
    {
      var c := SqlExpression.Where(h, exp);
      if c.Throws? {
        return Throws(c.exception);
      }
      var n := conn.Run(Query, Statements.CountByExpression(m.entityTypeName, c.value), NoParam, tx);
      r := Ok(n);
    }

    /** Count(sql, where). */
    method CountBySql(conn: Connection, m: ClassMap, sql: Statements.NullableString, where: Statements.NullableString, tx: Option<Tx>)
      returns (n: int)
      modifies conn
      ensures conn.log == old(conn.log) + [RoundTrip(Query, Statements.CountText(m.entityTypeName, sql, where), NoParam, tx)]
      ensures n == conn.reply(conn.log)
      ensures RoundTripsIn(old(conn.log), conn.log, tx)
    {
      n := conn.Run(Query, Statements.CountText(m.entityTypeName, sql, where), NoParam, tx);
    }

    /** The untyped paged Query: the bounds are left to SQL. */
    method PagedQuery(conn: Connection, sql: Statements.NullableString, orderBy: Statements.NullableString,
                      pageIndex: int, pageSize: int, tx: Option<Tx>) returns (n: int)
      modifies conn
      ensures conn.log == old(conn.log) + [RoundTrip(Query, Statements.PagedQuery(sql, orderBy, pageIndex, pageSize), NoParam, tx)]
      ensures n == conn.reply(conn.log)
      ensures RoundTripsIn(old(conn.log), conn.log, tx)
    {
      n := conn.Run(Query, Statements.PagedQuery(sql, orderBy, pageIndex, pageSize), NoParam, tx);
    }

    /** The typed paged Query: the bounds computed in Int32 arithmetic. */
    method TypedPagedQuery(conn: Connection, sql: Statements.NullableString, orderBy: Statements.NullableString,
                           pageIndex: int, pageSize: int, tx: Option<Tx>) returns (n: int)
      requires Statements.IsInt32(pageIndex) && Statements.IsInt32(pageSize)
      modifies conn
      ensures conn.log == old(conn.log) + [RoundTrip(Query, Statements.TypedPagedQuery(sql, orderBy, pageIndex, pageSize), NoParam, tx)]
      ensures n == conn.reply(conn.log)
      ensures RoundTripsIn(old(conn.log), conn.log, tx)
    {
      n := conn.Run(Query, Statements.TypedPagedQuery(sql, orderBy, pageIndex, pageSize), NoParam, tx);
    }

    /** Where by expression: blank orderBy falls back to the generator's. */
    method WhereByExpression(conn: Connection, h: SqlExpression.Host, m: ClassMap, exp: SqlExpression.Lambda,
                             orderBy: Statements.NullableString, tx: Option<Tx>) returns (r: Result<int>)
      modifies conn
      ensures RoundTripsIn(old(conn.log), conn.log, tx)
      ensures SqlExpression.Where(h, exp).Throws? ==>
        r == Throws(SqlExpression.Where(h, exp).exception) && conn.log == old(conn.log)
      ensures SqlExpression.Where(h, exp).Ok? ==>
        var o := Statements.OrderByOrDefault(orderBy, generator.getOrderBy(m));
        conn.log == old(conn.log)
          + [RoundTrip(Query, Statements.WhereByExpression(m.entityTypeName, SqlExpression.Where(h, exp).value, o), NoParam, tx)]
        && r == Ok(conn.reply(conn.log))
    {
      var c := SqlExpression.Where(h, exp);
      if c.Throws? {
        return Throws(c.exception);
      }
      var o := Statements.OrderByOrDefault(orderBy, generator.getOrderBy(m));
      var n := conn.Run(Query, Statements.WhereByExpression(m.entityTypeName, c.value, o), NoParam, tx);
      r := Ok(n);
    }

    /** Paged Where by expression: orderBy is used as given, even when blank. */
    method PagedWhereByExpression(conn: Connection, h: SqlExpression.Host, m: ClassMap, exp: SqlExpression.Lambda,
                                  orderBy: Statements.NullableString, pageIndex: int, pageSize: int, tx: Option<Tx>)
      returns (r: Result<int>)
      modifies conn
      ensures RoundTripsIn(old(conn.log), conn.log, tx)
      ensures SqlExpression.Where(h, exp).Throws? ==>
        r == Throws(SqlExpression.Where(h, exp).exception) && conn.log == old(conn.log)
      ensures SqlExpression.Where(h, exp).Ok? ==>
        conn.log == old(conn.log)
          + [RoundTrip(Query, Statements.PagedWhereByExpression(m.entityTypeName, SqlExpression.Where(h, exp).value,
                                                                 orderBy, pageIndex, pageSize), NoParam, tx)]
        && r == Ok(conn.reply(conn.log))
    {
      var c := SqlExpression.Where(h, exp);
      if c.Throws? {
        return Throws(c.exception);
      }
      var sql := Statements.PagedWhereByExpression(m.entityTypeName, c.value, orderBy, pageIndex, pageSize);
      var n := conn.Run(Query, sql, NoParam, tx);
      r := Ok(n);
    }

    /** Where by text: blank where is "1=1", blank orderBy the generator's. */
    method WhereByText(conn: Connection, m: ClassMap, where: Statements.NullableString, orderBy: Statements.NullableString,
                       tx: Option<Tx>) returns (n: int)
      modifies conn
      ensures var o := Statements.OrderByOrDefault(orderBy, generator.getOrderBy(m));
        conn.log == old(conn.log) + [RoundTrip(Query, Statements.WhereByText(m.entityTypeName, where, o), NoParam, tx)]
        && n == conn.reply(conn.log)
      ensures RoundTripsIn(old(conn.log), conn.log, tx)
    {
      var o := Statements.OrderByOrDefault(orderBy, generator.getOrderBy(m));
      n := conn.Run(Query, Statements.WhereByText(m.entityTypeName, where, o), NoParam, tx);
    }

    /** Paged Where by text: the same defaults, inside the paging wrapper. */
    method PagedWhereByText(conn: Connection, m: ClassMap, where: Statements.NullableString, orderBy: Statements.NullableString,
                            pageIndex: int, pageSize: int, tx: Option<Tx>) returns (n: int)
      modifies conn
      ensures var o := Statements.OrderByOrDefault(orderBy, generator.getOrderBy(m));
        conn.log == old(conn.log)
          + [RoundTrip(Query, Statements.PagedWhereByText(m.entityTypeName, where, o, pageIndex, pageSize), NoParam, tx)]
        && n == conn.reply(conn.log)
      ensures RoundTripsIn(old(conn.log), conn.log, tx)
    {
      var o := Statements.OrderByOrDefault(orderBy, generator.getOrderBy(m));
      n := conn.Run(Query, Statements.PagedWhereByText(m.entityTypeName, where, o, pageIndex, pageSize), NoParam, tx);
    }

    /** GetMultipleByBatch: all selects in one text with shared parameters,
        sent as a single reader. */
    method GetMultipleByBatch(conn: Connection, items: seq<MultipleItem>, tx: Option<Tx>) returns (n: int)
      modifies conn
      ensures conn.log == old(conn.log) + [RoundTrip(QueryMultiple, Batch(generator, items).sql, Dynamic(Batch(generator, items).parameters), tx)]
      ensures n == conn.reply(conn.log)
      ensures RoundTripsIn(old(conn.log), conn.log, tx)
    {
      var parameters: Row := map[];
      var sql := "";
      for i := 0 to |items|
        invariant Batch(generator, items[..i]) == Statement(sql, parameters)
      {
        assert items[..i + 1][..i] == items[..i];
        var item := items[i];
        var st := generator.select(item.classMap, GetPredicate(item.filter), item.sort, parameters);
        parameters := st.parameters;
        sql := sql + (st.sql + generator.batchSeparator) + "\r\n";
      }
      assert items[..|items|] == items;
      n := conn.Run(QueryMultiple, sql, Dynamic(parameters), tx);
    }

    /** GetMultipleBySequence: one reader per item, collected in order. */
    method GetMultipleBySequence(conn: Connection, items: seq<MultipleItem>, tx: Option<Tx>) returns (readers: seq<int>)
      modifies conn
      ensures conn.log == old(conn.log) + SequenceTrips(generator, items, tx)
      ensures |readers| == |items|
      ensures forall i :: 0 <= i < |items| ==> readers[i] == conn.reply(conn.log[..|old(conn.log)| + i + 1])
      ensures RoundTripsIn(old(conn.log), conn.log, tx)
    {
      readers := [];
      for i := 0 to |items|
        invariant conn.log == old(conn.log) + SequenceTrips(generator, items[..i], tx)
        invariant |readers| == i
        invariant forall k :: 0 <= k < i ==> readers[k] == conn.reply(conn.log[..|old(conn.log)| + k + 1])
      {
        var item := items[i];
        var st := generator.select(item.classMap, GetPredicate(item.filter), item.sort, map[]);
        ghost var before := conn.log;
        var reader := conn.Run(QueryMultiple, st.sql, Dynamic(st.parameters), tx);
        assert SequenceTrips(generator, items[..i + 1], tx) == SequenceTrips(generator, items[..i], tx) + [conn.log[|conn.log| - 1]];
        forall k | 0 <= k < i
          ensures readers[k] == conn.reply(conn.log[..|old(conn.log)| + k + 1])
        {
          assert conn.log[..|old(conn.log)| + k + 1] == before[..|old(conn.log)| + k + 1];
        }
        assert conn.log[..|old(conn.log)| + i + 1] == conn.log;
        readers := readers + [reader];
      }
      assert items[..|items|] == items;
    }

    /** GetMultiple: batch when the dialect runs several statements at
        once, one by one otherwise. */
    method GetMultiple(conn: Connection, items: seq<MultipleItem>, tx: Option<Tx>) returns (readers: seq<int>)
      modifies conn
      ensures generator.supportsMultipleStatements ==>
        conn.log == old(conn.log) + [RoundTrip(QueryMultiple, Batch(generator, items).sql, Dynamic(Batch(generator, items).parameters), tx)]
        && readers == [conn.reply(conn.log)]
      ensures !generator.supportsMultipleStatements ==>
        conn.log == old(conn.log) + SequenceTrips(generator, items, tx) && |readers| == |items|
        && forall i :: 0 <= i < |items| ==> readers[i] == conn.reply(conn.log[..|old(conn.log)| + i + 1])
      ensures RoundTripsIn(old(conn.log), conn.log, tx)
    {
      if generator.supportsMultipleStatements {
        var n := GetMultipleByBatch(conn, items, tx);
        readers := [n];
      } else {
        readers := GetMultipleBySequence(conn, items, tx);
      }
    }
  }

  // ---------------------------------------------------------------------
  // Properties

  /** Every property is either not a key, an identity, or a Guid or
      Assigned key. */
  lemma {:induction false} KeysSplit(props: seq<PropertyMap>)
    ensures |PropertiesWhere(props, IsKey)| == |PropertiesWhere(props, IsIdentity)| + |PropertiesWhere(props, IsGuidOrAssigned)|
    decreases |props|
  {
    if |props| > 0 {
      KeysSplit(props[1..]);
    }
  }

  /** Insert returns the key bare exactly when the map has one key column,
      of whatever kind, and an empty dictionary when it has none; the
      identity, if any, comes first. */
  lemma InsertReturnShape(m: ClassMap, fields: Row, identity: int)
    requires |Identities(m)| <= 1
    ensures Returned(KeyEntries(m, fields, identity)).Bare? <==> |Keys(m)| == 1
    ensures |Keys(m)| == 0 ==> Returned(KeyEntries(m, fields, identity)) == Dictionary([])
    ensures |Identities(m)| == 1 && |Keys(m)| == 1 ==> Returned(KeyEntries(m, fields, identity)) == Bare(Int(identity))
    ensures |Identities(m)| == 1 ==> KeyEntries(m, fields, identity)[0] == (Identities(m)[0].name, Int(identity))
  {
    KeysSplit(m.properties);
  }

  /** Batch insert: the Guid columns it overwrites are exactly the map's
      Guid properties. */
  lemma GuidKeyNames(m: ClassMap)
    ensures GuidNames(Keys(m)) == set p | p in m.properties && p.keyType == Guid :: p.name
    ensures GuidNames(NonIdentityKeys(m)) == GuidNames(Keys(m))
  {
  }

  /** An update writes the entity's updatable columns and the generator's
      parameters, with the generator's value where both name a column. */
  lemma UpdateParametersMeaning(m: ClassMap, fields: Row, generated: Row, n: string)
    ensures n in UpdateParameters(m, fields, generated) <==>
      n in generated || (n in fields && exists p :: p in m.properties && IsUpdatable(p) && p.name == n)
    ensures n in generated ==> UpdateParameters(m, fields, generated)[n] == generated[n]
    ensures n !in generated && n in UpdateParameters(m, fields, generated) ==> UpdateParameters(m, fields, generated)[n] == fields[n]
  {
  }

  /** With several statements per round trip, GetMultiple makes exactly
      one; otherwise one per item. */
  lemma MultipleRoundTrips(g: SqlGenerator, items: seq<MultipleItem>, tx: Option<Tx>)
    ensures |SequenceTrips(g, items, tx)| == |items|
    ensures forall i :: 0 <= i < |items| ==> SequenceTrips(g, items, tx)[i].command == QueryMultiple
  {
  }
}
