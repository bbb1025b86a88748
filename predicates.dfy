/** The predicate builders of the CRUD layer: an id, an entity's key columns
    or a by-example template becomes one equality per column, used bare when
    there is exactly one and wrapped in an AND group otherwise. */
module Predicates {
  import opened Clr
  import opened Wrappers

  datatype Operator = Eq | Gt | Ge | Lt | Le | Like
  datatype GroupOperator = And | Or

  /** FieldPredicate and PredicateGroup. */
  datatype Predicate =
    | Field(propertyName: string, op: Operator, value: Value, not: bool)
    | Group(groupOp: GroupOperator, predicates: seq<Predicate>)

  datatype KeyType = NotAKey | Identity | Guid | Assigned

  /** One mapped property: its column name, key kind and the two flags that
      keep it out of updates. */
  datatype PropertyMap = PropertyMap(name: string, keyType: KeyType, ignored: bool, readOnly: bool)

  /** A class map: the entity's type name and its mapped properties in order. */
  datatype ClassMap = ClassMap(entityTypeName: string, properties: seq<PropertyMap>)

  /** An entity, or any object read through reflection: property name to value. */
  type Row = map<string, Value>

  /** The public properties of an object with their values, in declaration
      order, as ReflectionHelper.GetObjectValues enumerates them. */
  type Record = seq<(string, Value)>

  /** The `id` argument: null, a value of a simple type (compared with every
      key), or an object whose properties supply the keys by name. */
  datatype IdArg = NullId | SimpleId(id: Value) | CompositeId(values: Row)

  /** The `predicate` argument of the query operations: null, an IPredicate,
      or any other object, read as a by-example template. */
  datatype Filter = NoFilter | Given(where: Predicate) | Example(template: Record)

  /** `properties.Where(keep)`, in map order. */
  function PropertiesWhere(props: seq<PropertyMap>, keep: PropertyMap -> bool): (r: seq<PropertyMap>)
    ensures forall p :: p in r <==> p in props && keep(p)
    ensures |r| <= |props|
  {
    if |props| == 0 then []
    else (if keep(props[0]) then [props[0]] else []) + PropertiesWhere(props[1..], keep)
  }

  predicate IsKey(p: PropertyMap) {
    p.keyType != NotAKey
  }

  /** The key columns of a map: every property whose KeyType is not NotAKey. */
  function Keys(m: ClassMap): seq<PropertyMap> {
    PropertiesWhere(m.properties, IsKey)
  }

  function EqualTo(name: string, v: Value): Predicate {
    Field(name, Eq, v, false)
  }

  /** One `Eq`, `Not = false` field predicate per pair, in order. */
  function Equalities(pairs: Record): seq<Predicate> {
    seq(|pairs|, i requires 0 <= i < |pairs| => EqualTo(pairs[i].0, pairs[i].1))
  }

  /** `predicates.Count == 1 ? predicates[0] : new PredicateGroup { And, predicates }`. */
  function Combine(ps: seq<Predicate>): Predicate {
    if |ps| == 1 then ps[0] else Group(And, ps)
  }

  /** The value the id supplies for the key named `name`: a simple id is that
      value for every key; a composite id must have a property of that name. */
  function IdValue(id: IdArg, name: string): Option<Value> {
    match id
    case NullId => None
    case SimpleId(v) => Some(v)
    case CompositeId(values) => if name in values then Some(values[name]) else None
  }

  predicate Supplies(id: IdArg, keys: seq<PropertyMap>) {
    forall i :: 0 <= i < |keys| ==> IdValue(id, keys[i].name).Some?
  }

  /** The (key name, id value) pairs, in key order. */
  function IdPairs(id: IdArg, keys: seq<PropertyMap>): Record
    requires Supplies(id, keys)
  {
    seq(|keys|, i requires 0 <= i < |keys| => (keys[i].name, IdValue(id, keys[i].name).value))
  }

  /** GetIdPredicate as a value: `id.GetType()` fails on null, a missing
      name in `paramValues[key.Name]` fails with KeyNotFound. */
  function IdPredicate(m: ClassMap, id: IdArg): Result<Predicate> {
    var keys := Keys(m);
    if id.NullId? then Throws(NullReference)
    else if !Supplies(id, keys) then Throws(KeyNotFound)
    else Ok(Combine(Equalities(IdPairs(id, keys))))
  }

  /** GetIdPredicate: one field predicate per key, appended in a loop. */
  method GetIdPredicate(m: ClassMap, id: IdArg) returns (r: Result<Predicate>)
    ensures r == IdPredicate(m, id)
  {
    if id.NullId? {
      return Throws(NullReference);
    }
    var keys := Keys(m);
    var predicates: seq<Predicate> := [];
    for i := 0 to |keys|
      invariant |predicates| == i
      invariant forall k :: 0 <= k < i ==> IdValue(id, keys[k].name).Some?
      invariant forall k :: 0 <= k < i ==> predicates[k] == EqualTo(keys[k].name, IdValue(id, keys[k].name).value)
    {
      var value := IdValue(id, keys[i].name);
      if value.None? {
        return Throws(KeyNotFound);
      }
      predicates := predicates + [EqualTo(keys[i].name, value.value)];
    }
    assert predicates == Equalities(IdPairs(id, keys));
    r := Ok(Combine(predicates));
  }

  /** The entity has a value for every mapped property. */
  predicate Conforms(m: ClassMap, entity: Row) {
    forall i :: 0 <= i < |m.properties| ==> m.properties[i].name in entity
  }

  /** GetKeyPredicate: the key columns compared with the entity's own values. */
  function KeyPredicate(m: ClassMap, entity: Row): Result<Predicate>
    requires Conforms(m, entity)
  {
    var keys := Keys(m);
    if |keys| == 0 then Throws(Argument("At least one Key column must be defined."))
    else
      assert forall i :: 0 <= i < |keys| ==> keys[i] in m.properties;
      Ok(Combine(Equalities(seq(|keys|, i requires 0 <= i < |keys| => (keys[i].name, entity[keys[i].name])))))
  }

  /** GetEntityPredicate as a value: one equality per template property. */
  function EntityPredicate(template: Record): Predicate {
    Combine(Equalities(template))
  }

  /** GetEntityPredicate: the template's properties appended in a loop. */
  method GetEntityPredicate(template: Record) returns (r: Predicate)
    ensures r == EntityPredicate(template)
  {
    var predicates: seq<Predicate> := [];
    for i := 0 to |template|
      invariant |predicates| == i
      invariant forall k :: 0 <= k < i ==> predicates[k] == EqualTo(template[k].0, template[k].1)
    {
      predicates := predicates + [EqualTo(template[i].0, template[i].1)];
    }
    assert predicates == Equalities(template);
    r := Combine(predicates);
  }

  /** GetPredicate: an IPredicate is used as it is, any other non-null
      object as a template, and null stays null. */
  function GetPredicate(f: Filter): Option<Predicate> {
    match f
    case NoFilter => None
    case Given(p) => Some(p)
    case Example(t) => Some(EntityPredicate(t))
  }

  // ---------------------------------------------------------------------
  // What a predicate selects

  /** A predicate read as a row filter: an `Eq` field holds when the row has
      that value in that column, other operators are compared by `compare`,
      `Not` negates, an AND group needs every member and an OR group one. */
  predicate Holds(compare: (Operator, Value, Value) -> bool, p: Predicate, row: Row)
    decreases p
  {
    match p
    case Field(n, op, v, neg) =>
      (n in row && (if op == Eq then row[n] == v else compare(op, row[n], v))) != neg
    case Group(g, ps) =>
      if g == And then forall i :: 0 <= i < |ps| ==> Holds(compare, ps[i], row)
      else exists i :: 0 <= i < |ps| && Holds(compare, ps[i], row)
  }

  /** The row carries every pair's value under the pair's name. */
  predicate Matches(pairs: Record, row: Row) {
    forall i :: 0 <= i < |pairs| ==> pairs[i].0 in row && row[pairs[i].0] == pairs[i].1
  }

  /** The combined equalities: a single pair is a bare field predicate, any
      other number (zero included) an AND group of one equality per pair. */
  lemma CombinedShape(pairs: Record)
    ensures |pairs| == 1 ==> Combine(Equalities(pairs)) == Field(pairs[0].0, Eq, pairs[0].1, false)
    ensures |pairs| != 1 ==>
      var p := Combine(Equalities(pairs));
      p.Group? && p.groupOp == And && |p.predicates| == |pairs|
      && forall i :: 0 <= i < |pairs| ==> p.predicates[i] == Field(pairs[i].0, Eq, pairs[i].1, false)
  {
  }

  /** Bare or grouped, the combined equalities select exactly the rows that
      agree with every pair; with no pairs that is every row. */
  lemma CombinedMeaning(compare: (Operator, Value, Value) -> bool, pairs: Record, row: Row)
    ensures Holds(compare, Combine(Equalities(pairs)), row) <==> Matches(pairs, row)
  {
    var eqs := Equalities(pairs);
    forall i | 0 <= i < |pairs|
      ensures Holds(compare, eqs[i], row) <==> pairs[i].0 in row && row[pairs[i].0] == pairs[i].1
    {
      assert eqs[i] == Field(pairs[i].0, Eq, pairs[i].1, false);
    }
    if |pairs| == 1 {
      assert Combine(eqs) == eqs[0];
    } else {
      assert Combine(eqs) == Group(And, eqs);
    }
  }

  /** A simple id selects the rows whose every key column equals it. */
  lemma SimpleIdMeaning(compare: (Operator, Value, Value) -> bool, m: ClassMap, v: Value, row: Row)
    ensures IdPredicate(m, SimpleId(v)).Ok?
    ensures Holds(compare, IdPredicate(m, SimpleId(v)).value, row)
        <==> forall p :: p in m.properties && p.keyType != NotAKey ==> p.name in row && row[p.name] == v
  {
    var keys := Keys(m);
    KeysMembers(m);
    var pairs := IdPairs(SimpleId(v), keys);
    CombinedMeaning(compare, pairs, row);
    if forall p :: p in m.properties && p.keyType != NotAKey ==> p.name in row && row[p.name] == v {
      forall i | 0 <= i < |pairs| ensures pairs[i].0 in row && row[pairs[i].0] == pairs[i].1 {
        assert keys[i] in keys;
      }
    } else {
      var p :| p in m.properties && p.keyType != NotAKey && !(p.name in row && row[p.name] == v);
      assert p in keys;
      var i :| 0 <= i < |keys| && keys[i] == p;
      assert pairs[i] == (p.name, v);
    }
  }

  /** The key columns are the mapped properties that are keys. */
  lemma KeysMembers(m: ClassMap)
    ensures forall p :: p in Keys(m) <==> p in m.properties && p.keyType != NotAKey
  {
  }

  /** Pairs read off `source` at some key columns hold of a row exactly when
      the row agrees with `source` on each of those columns. */
  lemma PairsOfKeys(compare: (Operator, Value, Value) -> bool, keys: seq<PropertyMap>, pairs: Record, source: Row, row: Row)
    requires |pairs| == |keys|
    requires forall i :: 0 <= i < |keys| ==> keys[i].name in source && pairs[i] == (keys[i].name, source[keys[i].name])
    ensures forall p :: p in keys ==> p.name in source
    ensures Holds(compare, Combine(Equalities(pairs)), row)
        <==> forall p :: p in keys ==> p.name in row && row[p.name] == source[p.name]
  {
    CombinedMeaning(compare, pairs, row);
    forall p | p in keys ensures p.name in source {
      var i :| 0 <= i < |keys| && keys[i] == p;
    }
    if forall p :: p in keys ==> p.name in row && row[p.name] == source[p.name] {
      forall i | 0 <= i < |pairs| ensures pairs[i].0 in row && row[pairs[i].0] == pairs[i].1 {
        assert keys[i] in keys;
      }
    } else {
      var p :| p in keys && !(p.name in row && row[p.name] == source[p.name]);
      var i :| 0 <= i < |keys| && keys[i] == p;
      assert !(pairs[i].0 in row && row[pairs[i].0] == pairs[i].1);
    }
  }

  /** A composite id selects the rows that agree with it on every key column;
      it fails exactly when it lacks one of them, and a null id always fails. */
  lemma IdPredicateMeaning(compare: (Operator, Value, Value) -> bool, m: ClassMap, id: IdArg, row: Row)
    ensures id.NullId? ==> IdPredicate(m, id) == Throws(NullReference)
    ensures id.CompositeId? ==>
      (IdPredicate(m, id).Ok? <==> forall p :: p in m.properties && p.keyType != NotAKey ==> p.name in id.values)
    ensures id.CompositeId? && IdPredicate(m, id).Throws? ==> IdPredicate(m, id) == Throws(KeyNotFound)
    ensures id.CompositeId? && IdPredicate(m, id).Ok? ==>
      (Holds(compare, IdPredicate(m, id).value, row) <==>
         forall p :: p in m.properties && p.keyType != NotAKey ==> p.name in row && row[p.name] == id.values[p.name])
  {
    if id.CompositeId? {
      var keys := Keys(m);
      KeysMembers(m);
      if Supplies(id, keys) {
        var pairs := IdPairs(id, keys);
        assert forall i :: 0 <= i < |keys| ==> IdValue(id, keys[i].name).Some?;
        PairsOfKeys(compare, keys, pairs, id.values, row);
      } else {
        var i :| 0 <= i < |keys| && IdValue(id, keys[i].name).None?;
        assert keys[i] in keys;
      }
    }
  }

  /** GetKeyPredicate fails exactly when the map has no key column; otherwise
      it selects the rows holding the entity's own key values, so in
      particular the entity itself. */
  lemma KeyPredicateMeaning(compare: (Operator, Value, Value) -> bool, m: ClassMap, entity: Row, row: Row)
    requires Conforms(m, entity)
    ensures KeyPredicate(m, entity).Throws? <==> forall p :: p in m.properties ==> p.keyType == NotAKey
    ensures KeyPredicate(m, entity).Throws? ==>
      KeyPredicate(m, entity) == Throws(Argument("At least one Key column must be defined."))
    ensures KeyPredicate(m, entity).Ok? ==>
      (Holds(compare, KeyPredicate(m, entity).value, row) <==>
         forall p :: p in m.properties && p.keyType != NotAKey ==> p.name in row && row[p.name] == entity[p.name])
    ensures KeyPredicate(m, entity).Ok? ==> Holds(compare, KeyPredicate(m, entity).value, entity)
  {
    var keys := Keys(m);
    KeysMembers(m);
    if |keys| == 0 {
      forall p | p in m.properties ensures p.keyType == NotAKey {
        assert p in keys <==> IsKey(p);
      }
    } else {
      assert keys[0] in keys;
      assert forall i :: 0 <= i < |keys| ==> keys[i] in m.properties;
      var pairs := seq(|keys|, i requires 0 <= i < |keys| => (keys[i].name, entity[keys[i].name]));
      PairsOfKeys(compare, keys, pairs, entity, row);
      PairsOfKeys(compare, keys, pairs, entity, entity);
    }
  }

  /** A template selects the rows that agree with each of its properties; a
      template without properties selects every row. */
  lemma EntityPredicateMeaning(compare: (Operator, Value, Value) -> bool, template: Record, row: Row)
    ensures Holds(compare, EntityPredicate(template), row) <==> Matches(template, row)
    ensures |template| == 0 ==> Holds(compare, EntityPredicate(template), row)
  {
    CombinedMeaning(compare, template, row);
  }

  /** GetPredicate passes predicates through, reads other objects as
      templates, and leaves a missing filter missing. */
  lemma GetPredicateMeaning(compare: (Operator, Value, Value) -> bool, f: Filter, row: Row)
    ensures GetPredicate(f).None? <==> f.NoFilter?
    ensures f.Given? ==> GetPredicate(f) == Some(f.where)
    ensures f.Example? ==> (Holds(compare, GetPredicate(f).value, row) <==> Matches(f.template, row))
  {
    if f.Example? {
      EntityPredicateMeaning(compare, f.template, row);
    }
  }
}
