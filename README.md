# DapperExtensions CRUD core, modelled in Dafny

DapperExtensions is a CRUD layer over Dapper. Given a class map (an entity's mapped properties, with their key kinds), it does several things:

- it builds predicates from an id, from an entity's key columns or from a by-example object;
- it asks a dialect-specific SQL generator for the statement text;
- it sends that statement over an ADO connection, enlisting it in a transaction.

The model covers these parts of the system.

- **`SqlExpression`** (`sql_expression.dfy`): the small compiler from a C# lambda expression `T => bool` to a SQL boolean fragment.
  - A binary node is rendered as `(left op right)`.
  - A comparison with a right operand that renders as `null` becomes `is null` / `is not null`.
  - Member accesses in name position give the column name.
  - In value position, a member access is evaluated on the host.
  - The pseudo-methods `Like`, `NotLike`, `In` and `NotIn` render as the matching SQL.
- **`Predicates`** (`predicates.dfy`): the predicate tree (field predicates and AND/OR groups) and the three predicate builders: by id, by key columns, by example.
  - They come with a reading of a predicate as a row filter.
  - The lemmas say which rows each built predicate selects.
- **`Statements`** (`statements.dfy`): the SQL texts the implementor builds itself, rather than asking the generator:
  - count, get and where by expression or by text;
  - the `ROW_NUMBER()` window of the paged queries, with its Int32 page arithmetic;
  - the dictionary-driven `update T set … where …` statement.
- **`Implementor`** (`implementor.dfy`): the `DapperImplementor` operations, each as a method on a `Connection`.
  - **`Backend`** (`backend.dfy`) models that connection as a log of events.
  - Every operation states the exact round trips it appends to the log, in which transaction, and what it returns.
  - It also states what it writes back into the entity: generated GUID keys and the identity value.
- **`Database`** (`database.dfy`): the `Database` façade, which holds one ambient transaction.
  - `BeginTransaction`, `Commit`, `Rollback` and `RunInTransaction` are proved against state-transition functions.
  - Lemmas about those functions:
    - an action's statements run inside one fresh transaction;
    - a throwing action is rolled back;
    - no transaction is left active when RunInTransaction returns, since in this model the connection's commit and rollback cannot fail and an action cannot dispose the database.
  - Each CRUD wrapper is proved to enlist its statements in the transaction it passes on.
- **`Reflector`** (`reflector.dfy`): the IL emitters that build fast property setters and getters.
  - An `ILGenerator` class records the emitted instruction stream.
  - The emitters are proved to produce exactly the documented block per property.
  - The `Ldc` helper is proved to pick the shortest load for every Int32.
  - `InvokeSetter` and `InvokeGetter` are reference semantics for what the emitted delegates do to an object's property slots.

Shared value types live in `clr.dfy` (`Clr`: CLR values, types and exceptions) and `wrappers.dfy` (`Wrappers`: `Option`, and `Result` with `Throws` for exceptions).

Several things the system depends on are parameters or oracles of the model:

- the SQL generator's templates, which are fields of `Backend.SqlGenerator`;
- the database's replies, which are `Connection.reply`, a function of the log;
- the host's evaluation of an expression and its `ToString`, which are `SqlExpression.Host`;
- the next GUID, which is `Backend.GuidSource` (every value is fresh and non-empty).

## Model

| member | source | states |
|---|---|---|
| SqlExpression.Where | SqlExpession.cs:27-37 | The compiler's entry point. Its cases are stated by WhereShape. |
| SqlExpression.Provider | SqlExpession.cs:39-59 | One binary node: left in name position, the operator, right in value position, with the null rewrite. ProviderParenthesized, NullEquality, NullInequality and NullDroppedForOtherOperators state its results. |
| SqlExpression.Router | SqlExpession.cs:61-128 | The dispatch on node kind and position. NodeRendering, ConstantRendering, MethodCallRendering and NewArrayRendering state each branch. |
| SqlExpression.OperatorText | SqlExpession.cs:130-166 | The operator table. OperatorTableDomain, ComparisonOperatorTable and ArithmeticOperatorTable state it entry by entry. |
| SqlExpression.ConstantText | SqlExpession.cs:112-121 | The rendering of a constant node. ConstantRendering states it per kind of value. |
| SqlExpression.WhereShape | SqlExpession.cs:27-37 | A lambda whose body is not a binary node compiles to the empty text. Otherwise the body's binary node is compiled. |
| SqlExpression.ProviderParenthesized | SqlExpession.cs:39-59 | A compiled binary node always begins with `(` and ends with `)`. |
| SqlExpression.AppendRightKeepsOpening | SqlExpession.cs:49-57 | Appending or rewriting the right operand keeps the opening parenthesis. |
| SqlExpression.OperatorTableDomain | SqlExpession.cs:130-166 | The operator table yields null exactly for the node types outside AND/OR, the six comparisons and the four arithmetic operators. |
| SqlExpression.ComparisonOperatorTable | SqlExpession.cs:130-166 | `And`/`AndAlso` give " AND " and `Or`/`OrElse` give " Or ". The comparisons give " =", "<>", " >", ">=", "<" and "<=". |
| SqlExpression.ArithmeticOperatorTable | SqlExpession.cs:130-166 | Add, Subtract, Multiply and Divide (checked forms included) give "+", "-", "*" and "/". |
| SqlExpression.RewriteAfter | SqlExpession.cs:49-55 | Cutting the two-character operator off "(left op" and adding the replacement gives "(left replacement". |
| SqlExpression.NullEquality | SqlExpession.cs:49-52 | `x == null` compiles to "(x is null)". |
| SqlExpression.NullInequality | SqlExpession.cs:53-55 | `x != null` compiles to "(x is not null)". |
| SqlExpression.NoRewriteSuffix | SqlExpession.cs:49-55 | No other operator text ends in " =" or "<>", so no other operator triggers the rewrite. |
| SqlExpression.NullDroppedForOtherOperators | SqlExpession.cs:49-57 | Under any other operator, a right operand rendering "null" is dropped: the result is "(left op)". |
| SqlExpression.NonNullRightAppended | SqlExpession.cs:56-57 | Any right operand that does not render as "null" is appended verbatim between the operator and ")". |
| SqlExpression.NodeRendering | SqlExpession.cs:61-128 | Member access behaves by position. In name position it gives the member's name. In value position it gives the evaluated value, with an Int32-based enum as its underlying integer, or the evaluation's exception. An enum with another underlying type fails the `(int)` cast with InvalidCast. A unary node forwards its operand in value position. Unknown nodes are null in both positions. A nested binary node is its compiled text. |
| SqlExpression.ConstantRendering | SqlExpession.cs:112-121 | A null constant is "null". Every value type is its unquoted ToString: a number, a bool, an enum, a Guid, any other struct, and also a DateTime or a char, which reach this branch before the quoting one. A string is quoted. Any other reference value is null. |
| SqlExpression.MethodCallRendering | SqlExpession.cs:95-111 | Like, NotLike, In and NotIn render as "(a like b)", "(a Not like b)", "a In (b)" and "a Not In (b)". Any other method is null in name position. In value position a call is its evaluated value. |
| SqlExpression.InWithCapturedArray | SqlExpession.cs:95-111 | `In(column, capturedArray)` in name position renders as "column In (variable)" (the captured field's name). |
| SqlExpression.JoinItemsIsJoin | SqlExpession.cs:84-94 | The StringBuilder loop produces the comma-join of the element texts, followed by one trailing comma. |
| SqlExpression.NewArrayRendering | SqlExpession.cs:84-94 | A non-empty array renders as its element texts joined by commas. An empty one throws ArgumentOutOfRange (the `ToString(0, -1)` on an empty builder). |
| SqlExpression.AgeAbove18 | SqlExpession.cs:39-83 | `p.Age > 18` compiles to "(Age >18)". |
| SqlExpression.NameIsNull | SqlExpession.cs:39-83 | `p.Name == null` compiles to "(Name is null)". |
| SqlExpression.AgeAndNullNameExample | SqlExpession.cs:27-83 | `p.Age > 18 && p.Name == null` compiles to "((Age >18) AND (Name is null))". |
| Predicates.PropertiesWhere | DapperImplementor.cs:98 | The filtered properties are exactly the mapped properties that satisfy the filter, and there are no more of them than before. |
| Predicates.GetIdPredicate | DapperImplementor.cs:363-399 | The loop builds exactly `IdPredicate`. A null id throws NullReference. A composite id missing a key's name throws KeyNotFound. Otherwise the result is one equality per key, combined. |
| Predicates.GetEntityPredicate | DapperImplementor.cs:427-448 | The loop builds one equality per template property, in order, combined (`EntityPredicate`). |
| Predicates.CombinedShape | DapperImplementor.cs:393-398 | Exactly one equality is used bare. Any other number, zero included, is an AND group of one `Eq`, not-negated field predicate per pair, in order. |
| Predicates.CombinedMeaning | DapperImplementor.cs:393-398 | As a row filter, the combined equalities hold exactly on the rows that carry every pair's value. |
| Predicates.SimpleIdMeaning | DapperImplementor.cs:363-399 | A simple id always builds a predicate. It selects exactly the rows whose every key column equals the id. |
| Predicates.IdPredicate | DapperImplementor.cs:363-399 | The id predicate of a class map. IdPredicateMeaning and SimpleIdMeaning state which rows it selects and when it throws. |
| Predicates.KeyPredicate | DapperImplementor.cs:401-425 | The key predicate of an entity. KeyPredicateMeaning states which rows it selects and when it throws. |
| Predicates.EntityPredicate | DapperImplementor.cs:427-448 | The by-example predicate of a template. EntityPredicateMeaning states which rows it selects. |
| Predicates.GetPredicate | DapperImplementor.cs:352-361 | The choice between null, an IPredicate and a template. GetPredicateMeaning states each case. |
| Predicates.IdPredicateMeaning | DapperImplementor.cs:363-399 | A null id throws NullReference. A composite id builds a predicate iff it has every key's name, and otherwise throws KeyNotFound. A built predicate selects exactly the rows matching the id's value on every key column. |
| Predicates.KeyPredicateMeaning | DapperImplementor.cs:401-425 | The builder throws "At least one Key column must be defined." iff no property is a key. Otherwise it selects exactly the rows agreeing with the entity on every key column, and the entity itself is one of them. |
| Predicates.EntityPredicateMeaning | DapperImplementor.cs:427-448 | A by-example predicate selects exactly the rows matching every template property. An empty template selects every row. |
| Predicates.GetPredicateMeaning | DapperImplementor.cs:352-361 | Null stays null and an IPredicate is used unchanged. Any other object acts as a by-example template. |
| Statements.DigitsRoundTrip | DapperImplementor.cs:528-533 | The decimal digits of a natural read back as that natural, and start with a digit. |
| Statements.DecimalTextInjective | DapperImplementor.cs:528-533 | Different integers format to different decimal texts, so the page bounds in the SQL text determine the numbers. |
| Statements.CountText | DapperImplementor.cs:262-288 | The Count(sql, where) text. CountTextCases and CountTextKeepsArguments state it. |
| Statements.CountTextCases | DapperImplementor.cs:262-288 | The four Count(sql, where) texts, chosen by which of sql and where are blank. |
| Statements.CountTextKeepsArguments | DapperImplementor.cs:262-288 | Every non-blank argument appears verbatim after " where ". When the caller does not supply both, the statement counts from the entity's table. |
| Statements.WrapBy | DapperImplementor.cs:528-529 | Unchecked Int32 arithmetic differs from exact arithmetic by a multiple of 2^32, always lands in Int32, and is the identity inside Int32. |
| Statements.WrapShift | DapperImplementor.cs:528-529 | Unchecked Int32 arithmetic ignores multiples of 2^32. |
| Statements.PageStart | DapperImplementor.cs:528 | The first row of a page in unchecked Int32 arithmetic. StartWraps, PageBounds and PageSizeModulo state its value. |
| Statements.PageEnd | DapperImplementor.cs:529 | The last row of a page in unchecked Int32 arithmetic. EndWraps, PageBounds and PageSizeModulo state its value. |
| Statements.PageBounds | DapperImplementor.cs:528-529 | Without overflow, page i of size s spans rows i*s+1 to s*(i+1): exactly s rows, with page i+1 starting right after. |
| Statements.PageSizeModulo | DapperImplementor.cs:528-529 | Even with overflow, the computed end minus start plus 1 equals the page size modulo 2^32. |
| Statements.FirstPages | DapperImplementor.cs:528-529 | Page 0 of size 10 is rows 1-10, and page 2 is rows 21-30. |
| Statements.Kept | DapperImplementor.cs:548-564 | The SET list holds exactly the update entries that no key entry shadows (KeptInOrder states their order). A key entry shadows an update entry when it has the same name ignoring case and the same declared type. |
| Statements.KeptInOrder | DapperImplementor.cs:548-564 | The kept entries are the update entries with the shadowed ones left out, the others in their original order. |
| Statements.TerminatedIsJoin | DapperImplementor.cs:580-587 | With a comma appended after every part, no parts give "" and some parts give their comma-join plus a trailing comma. |
| Statements.TrimTerminated | DapperImplementor.cs:580-587 | Dropping the last character of the comma-terminated text leaves the comma-join of the parts. |
| Statements.AppendAssignments | DapperImplementor.cs:548-564 | The first loop produces one assignment per unshadowed update entry, each followed by a comma. |
| Statements.AppendKeyTerms | DapperImplementor.cs:567-578 | The second loop produces one assignment per key entry, each followed by a comma. |
| Statements.UpdateText | DapperImplementor.cs:542-589 | The update statement's text. BuildUpdateStatement, UpdateSetsUnshadowed and AssignmentQuoting state its parts. |
| Statements.BuildUpdateStatement | DapperImplementor.cs:542-589 | A null update or key object throws NullReference. Otherwise the statement is `update T set <unshadowed assignments> where <key terms>`, each list comma-joined. |
| Statements.UpdateSetsUnshadowed | DapperImplementor.cs:548-564 | Every update entry is assigned in the SET list unless a key entry shadows it. It then appears in the list. |
| Statements.AssignmentQuoting | DapperImplementor.cs:556-563 | String and DateTime values are quoted as 'v'. Every other value is written by its ToString. |
| Backend.Connection.Run | DapperImplementor.cs:114 | A Dapper call appends one round trip (command, text, parameters, transaction) to the log. Its reply is the oracle's answer on the new log. |
| Backend.Connection.BeginTransaction | Database.cs:108-112 | A new transaction handle, distinct from all earlier ones, recorded in the log. |
| Backend.GuidSource.Next | DapperImplementor.cs:106 | A GUID never issued before and never Guid.Empty. |
| Implementor.GuidsAssignedAgain | DapperImplementor.cs:100-110 | Two rounds of GUID assignment compose into one: each Guid key ends with a fresh value from the union of the two pools. |
| Implementor.DapperImplementor.GetById | DapperImplementor.cs:80-86 | An id predicate that throws propagates with no round trip. Otherwise there is one query: generator.select over the id predicate, in the given transaction. |
| Implementor.DapperImplementor.GetByExpression | DapperImplementor.cs:88-93 | A compile error propagates with no round trip. Otherwise there is one query `select * from T [where c]`. |
| Implementor.DapperImplementor.AssignGuids | DapperImplementor.cs:102-109 | Every Guid key column receives a GUID never issued before and not Guid.Empty, and no two columns receive the same one. No other property changes. |
| Implementor.DapperImplementor.AssignAllGuids | DapperImplementor.cs:99-110 | Every entity of the collection gets fresh, non-empty GUIDs in its Guid columns, and nothing else changes. No GUID is shared between two columns or two entities. |
| Implementor.DapperImplementor.AssignEntityGuids | DapperImplementor.cs:100-109 | One iteration of the collection loop: entity i gets its GUIDs, drawn after every earlier entity's, so no two entities share one. Later entities are untouched. |
| Implementor.DapperImplementor.InsertAll | DapperImplementor.cs:95-115 | Every entity gets fresh, non-empty GUIDs in its Guid keys, none shared between columns or entities. Exactly one Execute of generator.insert then follows with all entities. |
| Implementor.DapperImplementor.CollectKeys | DapperImplementor.cs:155-158 | The identity entry, if any, is followed by each non-identity key's name and (updated) value, in map order. |
| Implementor.DapperImplementor.RunInsert | DapperImplementor.cs:132-153 | The insert runs alone without an identity. With one, the identity query follows in the same round trip or in a second one, by dialect, and its reply is the identity. |
| Implementor.DapperImplementor.InsertOne | DapperImplementor.cs:117-166 | More than one identity column throws InvalidOperation with no effect. Otherwise Guid keys get fresh, non-empty, pairwise distinct values and the insert runs (batched or not) with the identity query. The identity is written back, and the keys come back bare when there is one and as a dictionary otherwise. |
| Implementor.DapperImplementor.UpdateEntity | DapperImplementor.cs:168-188 | No key column throws with no round trip. Otherwise there is one Execute of generator.update over the key predicate. Its parameters are the updatable columns plus the generator's, and the call reports whether the row count is positive. |
| Implementor.DapperImplementor.UpdateByDictionary | DapperImplementor.cs:542-589 | A null dictionary throws NullReference with no round trip. Otherwise there is exactly one Execute of the built update statement, returning its row count. |
| Implementor.DapperImplementor.UpdateSql | DapperImplementor.cs:591-594 | Exactly one Execute of the caller's text, returning its reply. The connection state and the transaction counter are unchanged. |
| Implementor.DapperImplementor.DeleteWhere | DapperImplementor.cs:339-350 | One Execute of generator.delete with the statement's parameters. It reports whether the row count is positive. |
| Implementor.DapperImplementor.DeleteEntity | DapperImplementor.cs:190-195 | No key column throws with no round trip. Otherwise it deletes by the entity's key predicate. |
| Implementor.DapperImplementor.DeleteById | DapperImplementor.cs:205-210 | An id predicate that throws propagates with no round trip. Otherwise it deletes by the id predicate. |
| Implementor.DapperImplementor.DeleteByFilter | DapperImplementor.cs:212-217 | It deletes by GetPredicate of the argument, which is null or an IPredicate. The public overload's parameter type admits no template. |
| Implementor.DapperImplementor.GetList | DapperImplementor.cs:300-311 | One query of generator.select with its parameters. |
| Implementor.DapperImplementor.GetPage | DapperImplementor.cs:313-324 | One query of generator.selectPaged over GetPredicate of the argument. |
| Implementor.DapperImplementor.GetSet | DapperImplementor.cs:326-337 | One query of generator.selectSet over GetPredicate of the argument. |
| Implementor.DapperImplementor.CountByFilter | DapperImplementor.cs:240-253 | One scalar query of generator.count over GetPredicate of the argument. |
| Implementor.DapperImplementor.CountByExpression | DapperImplementor.cs:255-260 | A compile error propagates with no round trip. Otherwise there is one query `select count(1) from T [where c]`. |
| Implementor.DapperImplementor.CountBySql | DapperImplementor.cs:262-288 | Exactly one scalar query of the Count(sql, where) text. |
| Implementor.DapperImplementor.PagedQuery | DapperImplementor.cs:508-519 | One query: the ROW_NUMBER window over the caller's text, with the page bounds left as SQL formulas. |
| Implementor.DapperImplementor.TypedPagedQuery | DapperImplementor.cs:526-539 | One query: the ROW_NUMBER window with the bounds computed in unchecked Int32 arithmetic. |
| Implementor.DapperImplementor.WhereByExpression | DapperImplementor.cs:597-614 | A compile error propagates. Otherwise there is one query ordered by the caller's order or, when blank, the generator's default. |
| Implementor.DapperImplementor.PagedWhereByExpression | DapperImplementor.cs:616-636 | A compile error propagates. Otherwise there is one windowed query ordered by the caller's order, used as given. |
| Implementor.DapperImplementor.WhereByText | DapperImplementor.cs:638-649 | One query `select * from T where <where or 1=1> order by <order or default>`. |
| Implementor.DapperImplementor.PagedWhereByText | DapperImplementor.cs:651-669 | One windowed query over `select * from T where <where or 1=1>`, ordered by the caller's order or the default. |
| Implementor.DapperImplementor.GetMultipleByBatch | DapperImplementor.cs:450-474 | One QueryMultiple of all item statements, each ended by the batch separator and a line break, sharing one parameter dictionary. |
| Implementor.DapperImplementor.GetMultipleBySequence | DapperImplementor.cs:476-501 | One QueryMultiple per item, in order. Reader i is the reply to the i-th round trip. |
| Implementor.DapperImplementor.GetMultiple | DapperImplementor.cs:290-298 | Batched when the dialect supports multiple statements. Otherwise there is one round trip per item, in order, and reader i is the reply to the i-th. |
| Implementor.KeysSplit | DapperImplementor.cs:119-121 | The key columns split into identity keys and non-identity keys. |
| Implementor.InsertReturnShape | DapperImplementor.cs:147-165 | The return is bare iff there is exactly one key. With no key it is an empty dictionary. With one identity key it is the identity value, and the identity entry always comes first. |
| Implementor.GuidKeyNames | DapperImplementor.cs:97-108 | The GUID-assigned columns are exactly the Guid keys, whichever way the keys are gathered. |
| Implementor.UpdateParametersMeaning | DapperImplementor.cs:174-185 | A name is an update parameter iff the generator produced it, or it is an updatable column the entity has. Generator values override the entity's. |
| Implementor.MultipleRoundTrips | DapperImplementor.cs:476-501 | The unbatched form makes exactly one QueryMultiple per item. |
| Database.RunSpec | Database.cs:126-143 | Whatever the action's modelled steps (statements, begin, commit, rollback, raise) do, no transaction is active when RunInTransaction returns. |
| Database.Database.HasActiveTransaction | Database.cs:85-91 | True exactly when an ambient transaction is set. Commit, Rollback and RunInTransaction state it afterwards. |
| Database.Database.constructor | Database.cs:74-83 | The connection is opened unless it is already Open, and no transaction is active. |
| Database.Database.BeginTransaction | Database.cs:108-112 | A fresh transaction becomes the ambient one. |
| Database.Database.Commit | Database.cs:114-118 | It commits and clears the ambient transaction. With none it throws NullReference and changes nothing. |
| Database.Database.Rollback | Database.cs:120-124 | It rolls back and clears the ambient transaction. With none it throws NullReference and changes nothing. |
| Database.Database.Perform | Database.cs:201-205 | One step of a callback (a statement, a begin, a commit or a rollback), following the state-transition function. |
| Database.Database.RunAction | Database.cs:131 | The callback runs its steps until the first that throws. |
| Database.Database.RunInTransaction | Database.cs:126-143 | It begins, runs the action and commits. On an exception it rolls back if still active and rethrows. Afterwards no transaction is active. |
| Database.Database.RunInTransactionWith | Database.cs:145-163 | As RunInTransaction, and the function's value is returned when it succeeds. |
| Database.Database.Dispose | Database.cs:95-106 | For a connection not already closed, the ambient transaction is rolled back if there is one, then the connection is closed. A closed connection is left alone. |
| Database.Database.Get | Database.cs:165-169 | It makes exactly the round trip of DapperImplementor.GetById in the explicit transaction or, if none, the ambient one, and returns its result: the id error with nothing sent, or the reply to the select. |
| Database.Database.GetByExpression | Database.cs:171-175 | Exactly the round trip and result of DapperImplementor.GetByExpression, in the explicit transaction or, if none, the ambient one: the compile error with nothing sent, or the reply to the select. |
| Database.Database.InsertAll | Database.cs:177-181 | As DapperImplementor.InsertAll, in the explicit transaction or, if none, the ambient one: fresh, non-empty GUIDs disjoint across entities, then one Execute of the collection. |
| Database.Database.InsertOne | Database.cs:183-187 | As DapperImplementor.InsertOne, in the explicit transaction or, if none, the ambient one: InvalidOperation with no effect for several identities, otherwise the GUIDs, the insert trips, the identity write-back and the returned keys. |
| Database.Database.UpdateEntity | Database.cs:189-193 | As DapperImplementor.UpdateEntity, in the explicit transaction or, if none, the ambient one: the key error with nothing sent, or one Execute of the update and whether rows were affected. |
| Database.Database.UpdateByDictionary | Database.cs:195-199 | As DapperImplementor.UpdateByDictionary, in the explicit transaction or, if none, the ambient one: NullReference with nothing sent, or one Execute of the update text and its reply. |
| Database.Database.UpdateSql | Database.cs:201-205 | Exactly one Execute of the text, in the explicit transaction or, if none, the ambient one, and its reply is returned. |
| Database.Database.DeleteEntity | Database.cs:207-210 | As DapperImplementor.DeleteEntity, in the explicit transaction only; the ambient one is not consulted. The key error sends nothing; otherwise one delete and whether rows were affected. |
| Database.Database.DeleteByFilter | Database.cs:212-216 | As DapperImplementor.DeleteByFilter, in the explicit transaction or, if none, the ambient one: one delete by the predicate, and whether rows were affected. |
| Database.Database.DeleteById | Database.cs:217-221 | As written: the delete of DapperImplementor.DeleteById always runs in the ambient transaction, whatever is passed. The id error sends nothing; otherwise one delete and whether rows were affected. |
| Database.Database.DeleteByIdInTransaction | Database.cs:217-221 | Corrected: the delete of DapperImplementor.DeleteById runs in the explicit transaction or, if none, the ambient one, with the same id error and result. |
| Database.Database.GetList | Database.cs:222-226 | Exactly the select of DapperImplementor.GetList for the predicate, in the explicit transaction or, if none, the ambient one, and its reply. |
| Database.Database.GetPage | Database.cs:228-232 | Exactly the paged select of DapperImplementor.GetPage, in the explicit transaction or, if none, the ambient one, and its reply. |
| Database.Database.GetSet | Database.cs:234-238 | Exactly the set select of DapperImplementor.GetSet, in the explicit transaction or, if none, the ambient one, and its reply. |
| Database.Database.CountByFilter | Database.cs:240-244 | Exactly the count query of DapperImplementor.CountByFilter, in the explicit transaction or, if none, the ambient one, and its reply. |
| Database.Database.CountByExpression | Database.cs:245-249 | As DapperImplementor.CountByExpression, in the explicit transaction or, if none, the ambient one: the compile error with nothing sent, or the count query and its reply. |
| Database.Database.CountBySql | Database.cs:251-255 | Exactly one query of the count text, in the explicit transaction or, if none, the ambient one, and its reply. |
| Database.Database.GetMultiple | Database.cs:257-261 | As DapperImplementor.GetMultiple, in the explicit transaction or, if none, the ambient one: one batched QueryMultiple, or one per item in order with reader i the reply to trip i. |
| Database.Database.PagedQuery | Database.cs:284-288 | Exactly one query of the paged text, in the explicit transaction or, if none, the ambient one, and its reply. |
| Database.Database.TypedPagedQuery | Database.cs:296-300 | Exactly one query of the Int32 paged text, in the explicit transaction or, if none, the ambient one, and its reply. |
| Database.Database.WhereByExpression | Database.cs:303-306 | As DapperImplementor.WhereByExpression, in the explicit transaction only: the compile error with nothing sent, or the select and its reply. |
| Database.Database.WhereByText | Database.cs:309-312 | As DapperImplementor.WhereByText, in the explicit transaction only: one select and its reply. |
| Database.Database.PagedWhereByText | Database.cs:314-317 | As DapperImplementor.PagedWhereByText, in the explicit transaction only: one paged select and its reply. |
| Database.Database.PagedWhereByExpression | Database.cs:319-322 | As DapperImplementor.PagedWhereByExpression, in the explicit transaction only: the compile error with nothing sent, or the paged select and its reply. |
| Database.ActionOfWork | Database.cs:126-143 | A callback of plain statements runs all of them inside the current transaction and returns normally. |
| Database.RunPlainWorkCommits | Database.cs:126-143 | Statements-only: the log gains begin, the statements in the new transaction, then commit. |
| Database.RunRaiseRollsBack | Database.cs:134-142 | A callback that throws after some statements leaves them in the new transaction, and that transaction is rolled back. The exception is rethrown. |
| Database.RunSelfCommitFails | Database.cs:132-141 | A callback that commits on its own makes the final Commit throw NullReference. Its own commit stands, and no rollback follows. |
| Database.ActionFaults | Database.cs:131 | A callback fails only with an exception it raised, or with the NullReference of a commit or rollback with no active transaction. |
| Database.RunFaults | Database.cs:134-142 | RunInTransaction throws only an exception the callback raised, or the NullReference of a commit or rollback with no active transaction. |
| Database.DeleteByIdOutsideExplicit | Database.cs:217-221 | Calling DeleteById with an explicit transaction and none ambient: a valid id sends exactly one delete, and it runs outside that transaction. An invalid id returns its error and sends nothing. |
| Database.DeleteByIdIgnoresExplicit | Database.cs:217-221 | The merged transaction is the explicit one, yet round trips made with no ambient transaction are not in it. |
| Reflector.ILGenerator.constructor | Reflector/Class1.cs:16 | A new generator has no code, labels or locals. |
| Reflector.ILGenerator.Emit | Reflector/Class1.cs:19 | One instruction is appended. |
| Reflector.ILGenerator.DefineLabel | Reflector/Class1.cs:25 | A new label, numbered in order of definition. |
| Reflector.ILGenerator.Mark | Reflector/Class1.cs:43 | The label's position is marked in the stream. |
| Reflector.ILGenerator.DeclareLocal | Reflector/Class1.cs:18 | A new local, numbered in order of declaration. |
| Reflector.EmitSetterPrologue | Reflector/Class1.cs:18-21 | The setter code opens by unboxing the target into local 0, and no label is defined yet. |
| Reflector.EmitNullTest | Reflector/Class1.cs:28-34 | Loads value i, compares it with null and branches to the block's end label when it is null. |
| Reflector.EmitSetterArguments | Reflector/Class1.cs:36-40 | Pushes the target and value i, unboxed to the property's type, for the setter call. |
| Reflector.EmitSetterLoop | Reflector/Class1.cs:23-44 | Succeeds iff every property has a setter, and then appends exactly one setter block per property, in order. |
| Reflector.EmitSetterBlock | Reflector/Class1.cs:23-44 | For a property with a setter, the loop body emits exactly the 13-instruction setter block. Without a setter it stops before the call. |
| Reflector.EmitGetterBlock | Reflector/Class1.cs:68-82 | For a property with a getter, the loop body emits exactly the getter block, boxing value types. |
| Reflector.EmitGetterLoop | Reflector/Class1.cs:68-82 | Succeeds iff every property has a getter, and then appends exactly one getter block per property, in order. |
| Reflector.EmitGetterPrologue | Reflector/Class1.cs:56-66 | Locals tmp, result and obj are 0, 1 and 2, and the prologue unboxes the target and allocates the result array. |
| Reflector.CreatePropertiesAction | Reflector/Class1.cs:12-48 | A null or empty list throws ArgumentNull("infos"). A property without a setter throws ArgumentNull("meth"). Otherwise the code is the prologue, one setter block per property, then Ret. |
| Reflector.CreatePropertiesFunc | Reflector/Class1.cs:50-88 | A null or empty list throws ArgumentNull("infos"). A property without a getter throws ArgumentNull("meth"). Otherwise the code is the prologue, one getter block per property, then `ldloc result; ret`. |
| Reflector.InvokeSetter | Reflector/Class1.cs:23-44 | Each slot takes the non-null value at its index and is otherwise unchanged. A short value array throws IndexOutOfRange. |
| Reflector.InvokeGetter | Reflector/Class1.cs:50-88 | A new array with one slot per property, holding that property's value. |
| Reflector.Ldc | Reflector/Class1.cs:98-138 | The choice of constant-load instruction. LdcLoads, LdcForm and LdcShortest state it. |
| Reflector.ClassTypeOf | Reflector/Class1.cs:90-96 | A null or empty list throws ArgumentNull("infos"), and only then. Otherwise the result is the first property's reflected type, the type it was obtained from, which is not necessarily the class declaring it. When all properties were obtained from one type, it is that type. |
| Reflector.LdcLoads | Reflector/Class1.cs:98-138 | The emitted instruction loads exactly `value`, for every Int32. |
| Reflector.LdcForm | Reflector/Class1.cs:98-138 | -1..8 use the one-byte forms. Other values in -128..127 use `ldc.i4.s`, and the rest use `ldc.i4`. |
| Reflector.LdcShortest | Reflector/Class1.cs:98-138 | No instruction loading the same constant is shorter. |
| Reflector.SetterLayout | Reflector/Class1.cs:23-44 | The setter body is 13 instructions per property, and block k is property k's block. |
| Reflector.SetterBranchSkipsCall | Reflector/Class1.cs:32-43 | In block k, the null test branches to label k. Label k is marked right after the setter call, so a null value skips exactly that call. |
| Reflector.GetterBoxing | Reflector/Class1.cs:70-81 | A getter block is 8 instructions for a value type and 7 otherwise. It boxes iff the property is a value type, and it ends by storing into the array. |
| Reflector.GetterLayout | Reflector/Class1.cs:68-82 | The getter body is seven instructions per property plus one box per value-type property. |
| Reflector.GetterFrame | Reflector/Class1.cs:56-85 | The prologue loads the property count, allocates an object array of that size and stores it in local 1. The code ends with `ldloc result; ret`. |

## Left out

- The raw-SQL passthroughs `Query` (unpaged), `Query<K>` (unpaged) and `Execute<T>` (DapperImplementor.cs:503-506, 521-524 and 671-675; Database.cs:278-281, 290-293 and 325-329) are left out. Each forwards its arguments to one Dapper call unchanged, so there is nothing to state beyond `Connection.Run`.
- `ClearCache`, `GetNextGuid` and `GetMap` on Database (Database.cs:263-276) are out: they forward to the configuration, whose cache is not part of this model. `Backend.GuidSource.Next` stands for the GUID generator.
- The SQL generator (`ISqlGenerator`, dialects, class mappers) is not part of this model. Its templates are uninterpreted functions, so only the order and enlistment of statements is proved, not the SQL they produce.
- Dapper's execution, object materialisation and the multiple-result readers are not part of this model. Query results are opaque integers from the `reply` oracle, which leaves `SingleOrDefault`'s multiplicity check on Get out of scope, and `Single()`'s on the identity query and on Count (DapperImplementor.cs:139, 145, 252, 259, 287), which throw InvalidOperation on zero or several rows.
- `commandTimeout`, `buffered`, `CommandType` and the isolation level are dropped: none of them changes the text or the transaction of a statement.
- Compiling and invoking a sub-expression (`Expression.Lambda(..).Compile().DynamicInvoke()`) and every `ToString` are parameters (`SqlExpression.Host`). Culture-dependent number and date formatting is therefore not modelled, except for the Int32 page bounds. They are written in decimal with an ASCII "-" for a negative (wrapped) bound; `string.Format` (DapperImplementor.cs:537) uses the current culture, whose negative sign is not modelled.
- The `In`, `NotIn`, `Like` and `NotLike` extension methods (SqlExpession.cs:11-26) are markers whose bodies return a constant and are never invoked: the compiler only reads the call. Only their recognition by name is modelled.
- Reflector: executing the emitted IL is not modelled. `InvokeSetter` and `InvokeGetter` state the intended effect of the delegates on an object's property slots.
- Reflector: the CLR's checks are not modelled. A failed `unbox.any` cast is not modelled, and boxing does not change a `Value`.
- Reflector: `ILGenerator`'s rewriting of `ldloc`/`stloc n` into their short forms is not modelled. The opcodes are recorded as emitted.
- Implementor.DapperImplementor.InsertAll, Implementor.DapperImplementor.InsertOne, Implementor.DapperImplementor.UpdateEntity and Implementor.DapperImplementor.DeleteEntity (and their Database wrappers): a null entity or a null collection cannot be represented, since `Entity` is a non-null object reference. In the source, a null collection throws NullReference at the `foreach` (DapperImplementor.cs:100). A null entity throws TargetException from `SetValue` when a Guid key is assigned (lines 107, 127) or the identity written back (line 148), and from `GetValue` when the keys are read (line 157, after the insert's round trips have been made, and line 415 for Update and Delete).
- Statements.Kept: names are compared ignoring case for ASCII letters only. The ordinal case-insensitive folding of non-ASCII letters (`StringComparison.OrdinalIgnoreCase`, DapperImplementor.cs:552) is not modelled.
- Reflector.InvokeSetter: models the delegate on an array of property slots rather than on an object with setters. Aliasing between the target object and the value array is excluded by its precondition.
- Implementor.DapperImplementor.RunInsert: the identity is the reply itself. The InvalidOperation that `.Single()` throws when the identity query returns no row or several rows is not modelled.
- Implementor.DapperImplementor.CountByFilter: the count is the reply itself. `.Single()`'s InvalidOperation on zero or several rows is not modelled. The same holds for CountByExpression and CountBySql.
- SqlExpression.EndsWith: the tests for a trailing " =" and "<>" (SqlExpession.cs:51, 53) are ordinal suffix tests. The source calls the culture-sensitive `String.EndsWith(string)`, which can differ on texts holding characters the current culture ignores.
- Implementor.Batch: the line break after each batched statement (`AppendLine`, DapperImplementor.cs:463) is fixed as "\r\n". `Environment.NewLine` is that only on Windows.
- Backend.Connection.Commit and Backend.Connection.Rollback cannot fail. In the source a throwing `_transaction.Commit()` (Database.cs:116) followed by a throwing `Rollback()` in the catch (Database.cs:138) leaves the ambient transaction set, which the model does not capture.
- Database.RunSpec: a callback's steps are statements, begin, commit, rollback and raise. An action that disposes the database, or calls any other wrapper, is not modelled, so the guarantee that no transaction stays active covers only those steps.
- SQL validity of the produced texts is not checked: the system does no such check either.

Where the written behaviour departs from what one might expect, the model follows the code:

- `p.Age > 18` renders as "(Age >18)", because the operator text carries no trailing space.
- An empty AND group (a by-example template with no properties) selects every row.
- The paged Where by expression uses the caller's `orderBy` as given, while the unpaged one falls back to the generator's default.
- Count with both `sql` and `where` produces " sql where w" without a `select count(1) from`.

## Findings

| source | as written | input that shows it | evidently intended | confidence | as-written member | corrected member |
|---|---|---|---|---|---|---|
| Database.cs:217-221 | `DeleteById` merges `transaction ?? _transaction` into its parameter, then passes the field `_transaction` to the implementor | an explicit transaction `t` with no ambient transaction: the delete runs outside `t` | pass the merged transaction, as every other wrapper does | not executed | Database.DeleteByIdOutsideExplicit | Database.Database.DeleteByIdInTransaction |
