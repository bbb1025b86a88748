/** The statement texts the CRUD layer formats itself rather than asking
    the dialect's generator for: the expression-based select and count,
    the textual where clauses, the ROW_NUMBER paging wrapper with its
    32-bit page bounds, and the open dictionary update. */
module Statements {
  import opened Clr
  import opened Wrappers
  import SqlExpression

  /** A C# string that may be null, as it is passed in. */
  type NullableString = Option<string>

  /** `string.IsNullOrWhiteSpace`. */
  predicate IsNullOrWhiteSpace(s: NullableString) {
    s.None? || IsBlank(s.value)
  }

  /** A nullable string formatted or concatenated: null is "". */
  function TextOf(s: NullableString): string {
    if s.None? then "" else s.value
  }

  // ---------------------------------------------------------------------
  // Integers as text

  function DigitChar(d: nat): char
    requires d < 10
  {
    ('0' as int + d) as char
  }

  /** The decimal digits of a natural number, most significant first. */
  function Digits(n: nat): string
    decreases n
  {
    if n < 10 then [DigitChar(n)] else Digits(n / 10) + [DigitChar(n % 10)]
  }

  /** `int.ToString()` with the invariant sign "-". */
  function DecimalText(n: int): string {
    if n < 0 then "-" + Digits(-n) else Digits(n)
  }

  /** The number a string of decimal digits denotes. */
  function DigitsValue(s: string): int
    decreases |s|
  {
    if |s| == 0 then 0 else 10 * DigitsValue(s[..|s| - 1]) + (s[|s| - 1] as int - '0' as int)
  }

  lemma {:induction false} DigitsRoundTrip(n: nat)
    ensures DigitsValue(Digits(n)) == n
    ensures |Digits(n)| > 0 && '0' <= Digits(n)[0] <= '9'
    decreases n
  {
    if n >= 10 {
      DigitsRoundTrip(n / 10);
      var s := Digits(n / 10) + [DigitChar(n % 10)];
      assert s[..|s| - 1] == Digits(n / 10);
    }
  }

  /** Different numbers are formatted differently, so a formatted bound
      names exactly one number. */
  lemma DecimalTextInjective(a: int, b: int)
    requires DecimalText(a) == DecimalText(b)
    ensures a == b
  {
    DigitsRoundTrip(if a < 0 then -a else a);
    DigitsRoundTrip(if b < 0 then -b else b);
    assert (DecimalText(a)[0] == '-') == (a < 0);
    assert (DecimalText(b)[0] == '-') == (b < 0);
    if a < 0 {
      assert Digits(-a) == DecimalText(a)[1..];
      assert Digits(-b) == DecimalText(b)[1..];
    }
  }

  // ---------------------------------------------------------------------
  // Expression-based texts (Get, Count, Where)

  /** Get by expression: `select * from T ` (note the space) when the
      compiled condition is empty, otherwise `select * from T where c`. */
  function SelectByExpression(table: string, condition: string): string {
    if |condition| == 0 then "select * from " + table + " "
    else "select * from " + table + " where " + condition
  }

  /** Count by expression, shaped like SelectByExpression. */
  function CountByExpression(table: string, condition: string): string {
    if |condition| == 0 then "select count(1) from " + table + " "
    else "select count(1) from " + table + " where " + condition
  }

  /** `orderBy`, or the generator's default when it is blank. */
  function OrderByOrDefault(orderBy: NullableString, fallback: string): string {
    if IsNullOrWhiteSpace(orderBy) then fallback else orderBy.value
  }

  /** Where by expression, not paged. */
  function WhereByExpression(table: string, condition: string, orderBy: string): string {
    if |condition| == 0 then "select * from " + table + " order by " + orderBy
    else "select * from " + table + " where " + condition + " order by " + orderBy
  }

  /** The inner select of the paged Where by expression. */
  function PagedExpressionSource(table: string, condition: string): string {
    if |condition| == 0 then "select * from " + table
    else "select * from " + table + " where " + condition
  }

  /** A textual where clause; a blank one becomes "1=1". */
  function WhereClause(where: NullableString): string {
    if IsNullOrWhiteSpace(where) then "1=1" else where.value
  }

  /** Where by text, not paged. */
  function WhereByText(table: string, where: NullableString, orderBy: string): string {
    "select * from " + table + " where " + WhereClause(where) + " order by " + orderBy
  }

  /** Count(sql, where): four texts, by which of the two is blank. */
  function CountText(table: string, sql: NullableString, where: NullableString): string {
    if IsNullOrWhiteSpace(sql) then
      if IsNullOrWhiteSpace(where) then "select count(1) from " + table
      else "select count(1) from " + table + " where " + where.value
    else if !IsNullOrWhiteSpace(where) then " " + sql.value + " where " + where.value
    else "select count(1) from " + table + " where " + sql.value
  }

  lemma CountTextCases(table: string, sql: NullableString, where: NullableString)
    ensures IsNullOrWhiteSpace(sql) && IsNullOrWhiteSpace(where) ==>
      CountText(table, sql, where) == "select count(1) from " + table
    ensures IsNullOrWhiteSpace(sql) && !IsNullOrWhiteSpace(where) ==>
      CountText(table, sql, where) == "select count(1) from " + table + " where " + where.value
    ensures !IsNullOrWhiteSpace(sql) && !IsNullOrWhiteSpace(where) ==>
      CountText(table, sql, where) == " " + sql.value + " where " + where.value
    ensures !IsNullOrWhiteSpace(sql) && IsNullOrWhiteSpace(where) ==>
      CountText(table, sql, where) == "select count(1) from " + table + " where " + sql.value
  {
  }

  /** A text ends with what was appended to it and starts with what it was appended to. */
  lemma EndsWithAppended(a: string, b: string)
    ensures SqlExpression.EndsWith(a + b, b)
  {
    assert (a + b)[|a + b| - |b|..] == b;
  }

  lemma StartsWithAppended(a: string, b: string)
    ensures |a| <= |a + b| && (a + b)[..|a|] == a
  {
  }

  /** Whatever is blank, a Count(sql, where) statement carries every
      non-blank argument verbatim, and it counts from the entity's table
      unless the caller supplied both. */
  lemma CountTextKeepsArguments(table: string, sql: NullableString, where: NullableString)
    ensures !IsNullOrWhiteSpace(where) ==> SqlExpression.EndsWith(CountText(table, sql, where), " where " + where.value)
    ensures !IsNullOrWhiteSpace(sql) && IsNullOrWhiteSpace(where) ==>
      SqlExpression.EndsWith(CountText(table, sql, where), " where " + sql.value)
    ensures !(!IsNullOrWhiteSpace(sql) && !IsNullOrWhiteSpace(where)) ==>
      var p := "select count(1) from " + table;
      |p| <= |CountText(table, sql, where)| && CountText(table, sql, where)[..|p|] == p
  {
    var p := "select count(1) from " + table;
    var s := CountText(table, sql, where);
    if IsNullOrWhiteSpace(sql) {
      if IsNullOrWhiteSpace(where) {
        StartsWithAppended(p, []);
        assert p + [] == s;
      } else {
        var w := " where " + where.value;
        assert s == p + w;
        EndsWithAppended(p, w);
        StartsWithAppended(p, w);
      }
    } else {
      if IsNullOrWhiteSpace(where) {
        var w := " where " + sql.value;
        assert s == p + w;
        EndsWithAppended(p, w);
        StartsWithAppended(p, w);
      } else {
        var w := " where " + where.value;
        assert s == " " + sql.value + w;
        EndsWithAppended(" " + sql.value, w);
      }
    }
  }


  // ---------------------------------------------------------------------
  // Paging

  const Int32Range: int := 0x1_0000_0000

  predicate IsInt32(x: int) {
    -0x8000_0000 <= x < 0x8000_0000
  }

  /** Unchecked 32-bit arithmetic: the result reduced into the Int32 range. */
  function Wrap32(x: int): int {
    (x + 0x8000_0000) % Int32Range - 0x8000_0000
  }

  /** `pageIndex * pageSize + 1` in unchecked Int32 arithmetic. */
  function PageStart(pageIndex: int, pageSize: int): int {
    Wrap32(Wrap32(pageIndex * pageSize) + 1)
  }

  /** `pageSize * (pageIndex + 1)` in unchecked Int32 arithmetic. */
  function PageEnd(pageIndex: int, pageSize: int): int {
    Wrap32(pageSize * Wrap32(pageIndex + 1))
  }

  /** The ROW_NUMBER wrapper around an inner select: rows are numbered in
      `orderBy` order and the range clause picks a page of them. */
  function Window(orderBy: string, inner: string): string {
    "WITH Data_DataSet AS" + "(SELECT ROW_NUMBER() OVER (ORDER BY " + orderBy + ") AS Row, * FROM ("
      + inner + ")aa)" + "SELECT * FROM Data_DataSet"
  }

  /** The typed query's range: bounds computed in C#. */
  function RangeClause(start: int, end: int): string {
    " WHERE Row between " + DecimalText(start) + " and " + DecimalText(end)
  }

  /** The untyped query's and the paged Where's range: bounds left to SQL. */
  function FormulaClause(pageIndex: int, pageSize: int): string {
    var i, s := DecimalText(pageIndex), DecimalText(pageSize);
    " WHERE Row between (" + i + "*" + s + "+1) and (" + s + "*(" + i + "+1))"
  }

  function PagedQuery(sql: NullableString, orderBy: NullableString, pageIndex: int, pageSize: int): string {
    Window(TextOf(orderBy), TextOf(sql)) + FormulaClause(pageIndex, pageSize)
  }

  function TypedPagedQuery(sql: NullableString, orderBy: NullableString, pageIndex: int, pageSize: int): string {
    Window(TextOf(orderBy), TextOf(sql)) + RangeClause(PageStart(pageIndex, pageSize), PageEnd(pageIndex, pageSize))
  }

  function PagedWhereByExpression(table: string, condition: string, orderBy: NullableString, pageIndex: int, pageSize: int): string {
    Window(TextOf(orderBy), PagedExpressionSource(table, condition)) + FormulaClause(pageIndex, pageSize)
  }

  function PagedWhereByText(table: string, where: NullableString, orderBy: string, pageIndex: int, pageSize: int): string {
    Window(orderBy, "select * from " + table + " where " + WhereClause(where)) + FormulaClause(pageIndex, pageSize)
  }

  lemma ModOfShift(y: int, k: int)
    ensures (y + k * Int32Range) % Int32Range == y % Int32Range
  {
    var q, r := y / Int32Range, y % Int32Range;
    assert y + k * Int32Range == (q + k) * Int32Range + r;
  }

  lemma WrapShift(x: int, k: int)
    ensures Wrap32(x + k * Int32Range) == Wrap32(x)
  {
    ModOfShift(x + 0x8000_0000, k);
  }

  /** Wrapping subtracts a multiple of 2^32 and leaves Int32 values alone. */
  lemma WrapBy(x: int) returns (k: int)
    ensures Wrap32(x) == x + k * Int32Range
    ensures IsInt32(Wrap32(x))
    ensures IsInt32(x) ==> Wrap32(x) == x
  {
    k := -((x + 0x8000_0000) / Int32Range);
    if IsInt32(x) {
      assert 0 <= x + 0x8000_0000 < Int32Range;
    }
  }

  /** The start bound is the exact `pageIndex * pageSize + 1` up to a multiple of 2^32. */
  lemma StartWraps(pageIndex: int, pageSize: int) returns (k: int)
    ensures PageStart(pageIndex, pageSize) == pageIndex * pageSize + 1 + k * Int32Range
  {
    var p := pageIndex * pageSize;
    var a := WrapBy(p);
    var b := WrapBy(Wrap32(p) + 1);
    k := a + b;
  }

  /** The end bound is the exact `pageIndex * pageSize + pageSize` up to a multiple of 2^32. */
  lemma EndWraps(pageIndex: int, pageSize: int) returns (k: int)
    ensures PageEnd(pageIndex, pageSize) == pageIndex * pageSize + pageSize + k * Int32Range
  {
    var i, s, m := pageIndex, pageSize, Int32Range;
    var c := WrapBy(i + 1);
    var d := WrapBy(s * Wrap32(i + 1));
    assert s * (i + 1 + c * m) == i * s + s + (s * c) * m;
    k := s * c + d;
  }

  lemma StartExact(pageIndex: int, pageSize: int)
    requires IsInt32(pageIndex * pageSize) && IsInt32(pageIndex * pageSize + 1)
    ensures PageStart(pageIndex, pageSize) == pageIndex * pageSize + 1
  {
    WrapIdentity(pageIndex * pageSize);
    WrapIdentity(pageIndex * pageSize + 1);
  }

  lemma EndExact(pageIndex: int, pageSize: int)
    requires IsInt32(pageIndex + 1) && IsInt32(pageSize * (pageIndex + 1))
    ensures PageEnd(pageIndex, pageSize) == pageSize * (pageIndex + 1)
  {
    WrapIdentity(pageIndex + 1);
    WrapIdentity(pageSize * (pageIndex + 1));
  }

  /** The products the page bounds are made of, for a non-negative page. */
  lemma PageProducts(i: int, s: int)
    requires 0 <= i && 0 <= s
    ensures 0 <= i * s
    ensures s * (i + 1) == i * s + s && (i + 1) * s == i * s + s
    ensures s * (i + 2) == i * s + s + s
  {
  }

  /** Without overflow the bounds are the textbook ones: the page holds
      `pageSize` rows and the next page starts right after it. */
  lemma PageBounds(pageIndex: int, pageSize: int)
    requires 0 <= pageIndex < 0x7FFF_FFFF && 0 <= pageSize && pageSize * (pageIndex + 2) < 0x8000_0000
    ensures PageStart(pageIndex, pageSize) == pageIndex * pageSize + 1
    ensures PageEnd(pageIndex, pageSize) == pageSize * (pageIndex + 1)
    ensures PageEnd(pageIndex, pageSize) - PageStart(pageIndex, pageSize) + 1 == pageSize
    ensures PageStart(pageIndex + 1, pageSize) == PageEnd(pageIndex, pageSize) + 1
  {
    PageProducts(pageIndex, pageSize);
    StartExact(pageIndex, pageSize);
    EndExact(pageIndex, pageSize);
    StartExact(pageIndex + 1, pageSize);
  }

  lemma WrapIdentity(x: int)
    requires IsInt32(x)
    ensures Wrap32(x) == x
  {
    var _ := WrapBy(x);
  }

  /** Even when the bounds overflow, the range they span is `pageSize`
      rows modulo 2^32. */
  lemma PageSizeModulo(pageIndex: int, pageSize: int)
    requires IsInt32(pageIndex) && IsInt32(pageSize)
    ensures Wrap32(PageEnd(pageIndex, pageSize) - PageStart(pageIndex, pageSize) + 1) == pageSize
  {
    var a := StartWraps(pageIndex, pageSize);
    var b := EndWraps(pageIndex, pageSize);
    assert PageEnd(pageIndex, pageSize) - PageStart(pageIndex, pageSize) + 1 == pageSize + (b - a) * Int32Range;
    WrapShift(pageSize, b - a);
    WrapIdentity(pageSize);
  }

  lemma FirstPages()
    ensures PageStart(0, 10) == 1 && PageEnd(0, 10) == 10
    ensures PageStart(2, 10) == 21 && PageEnd(2, 10) == 30
  {
    PageBounds(0, 10);
    PageBounds(2, 10);
  }

  // ---------------------------------------------------------------------
  // The open dictionary update

  /** A public property of an anonymous update or key object. */
  datatype Property = Property(name: string, propertyType: ClrType, value: Value)

  /** Ordinal case folding, as far as ASCII letters go. */
  function Upper(c: char): char {
    if 'a' <= c <= 'z' then (c as int - 32) as char else c
  }

  predicate EqualsIgnoreCase(a: string, b: string) {
    |a| == |b| && forall i :: 0 <= i < |a| ==> Upper(a[i]) == Upper(b[i])
  }

  /** An update property is skipped when a key property has the same name,
      ignoring case, and the same declared type. */
  predicate Shadowed(p: Property, keys: seq<Property>) {
    exists k :: 0 <= k < |keys| && EqualsIgnoreCase(keys[k].name, p.name) && keys[k].propertyType == p.propertyType
  }

  /** `r` is `s` with some elements left out, the rest in their order. */
  predicate Subsequence(r: seq<Property>, s: seq<Property>)
    decreases |s|
  {
    if |r| == 0 then true
    else if |s| == 0 then false
    else (r[|r| - 1] == s[|s| - 1] && Subsequence(r[..|r| - 1], s[..|s| - 1])) || Subsequence(r, s[..|s| - 1])
  }

  /** The update properties that are written, in order. */
  function Kept(updates: seq<Property>, keys: seq<Property>): (r: seq<Property>)
    ensures forall p :: p in r <==> p in updates && !Shadowed(p, keys)
    ensures |r| <= |updates|
    decreases |updates|
  {
    if |updates| == 0 then []
    else
      var last := updates[|updates| - 1];
      Kept(updates[..|updates| - 1], keys) + (if Shadowed(last, keys) then [] else [last])
  }

  /** Kept leaves out the shadowed entries and keeps the others in their order. */
  lemma {:induction false} KeptInOrder(updates: seq<Property>, keys: seq<Property>)
    ensures Subsequence(Kept(updates, keys), updates)
    decreases |updates|
  {
    if |updates| > 0 {
      var init := updates[..|updates| - 1];
      var last := updates[|updates| - 1];
      var earlier := Kept(init, keys);
      KeptInOrder(init, keys);
      if Shadowed(last, keys) {
        assert Kept(updates, keys) == earlier + [] == earlier;
      } else {
        var r := earlier + [last];
        assert Kept(updates, keys) == r;
        assert r[|r| - 1] == updates[|updates| - 1] && r[..|r| - 1] == earlier;
      }
    }
  }

  /** `name='value'` for string and DateTime properties, `name=value` otherwise. */
  function Assignment(show: Value -> string, p: Property): string {
    if p.propertyType == StringType || p.propertyType == DateTimeType then p.name + "='" + Concatenated(show, p.value) + "'"
    else p.name + "=" + Concatenated(show, p.value)
  }

  function Assignments(show: Value -> string, ps: seq<Property>): seq<string> {
    seq(|ps|, i requires 0 <= i < |ps| => Assignment(show, ps[i]))
  }

  /** The update text: the kept assignments and the key terms, each
      comma-joined, the key terms too (not joined with AND). */
  function UpdateText(show: Value -> string, table: string, updates: seq<Property>, keys: seq<Property>): string {
    "update " + table + " set " + SqlExpression.JoinComma(Assignments(show, Kept(updates, keys)))
      + " where " + SqlExpression.JoinComma(Assignments(show, keys))
  }

  /** The StringBuilder contents: each part followed by a comma. */
  function Terminated(parts: seq<string>): string
    decreases |parts|
  {
    if |parts| == 0 then "" else Terminated(parts[..|parts| - 1]) + parts[|parts| - 1] + ","
  }

  lemma {:induction false} JoinCommaSnoc(parts: seq<string>, x: string)
    requires |parts| > 0
    ensures SqlExpression.JoinComma(parts + [x]) == SqlExpression.JoinComma(parts) + "," + x
    decreases |parts|
  {
    if |parts| == 1 {
      assert (parts + [x])[1..] == [x];
    } else {
      JoinCommaSnoc(parts[1..], x);
      assert (parts + [x])[1..] == parts[1..] + [x];
      var h, j := parts[0], SqlExpression.JoinComma(parts[1..]);
      assert h + "," + (j + "," + x) == (h + "," + j) + "," + x;
    }
  }

  /** Removing the last character of the built text leaves the comma-join. */
  lemma {:induction false} TerminatedIsJoin(parts: seq<string>)
    ensures |parts| == 0 ==> Terminated(parts) == ""
    ensures |parts| > 0 ==> Terminated(parts) == SqlExpression.JoinComma(parts) + ","
    decreases |parts|
  {
    if |parts| > 1 {
      var init, x := parts[..|parts| - 1], parts[|parts| - 1];
      TerminatedIsJoin(init);
      JoinCommaSnoc(init, x);
      assert init + [x] == parts;
    } else if |parts| == 1 {
      assert parts[..0] == [];
    }
  }

  /** `if (s.Length > 0) s.Remove(s.Length - 1, 1)`. */
  function TrimLast(s: string): string {
    if |s| > 0 then s[..|s| - 1] else s
  }

  lemma TrimTerminated(parts: seq<string>)
    ensures TrimLast(Terminated(parts)) == SqlExpression.JoinComma(parts)
  {
    TerminatedIsJoin(parts);
    if |parts| > 0 {
      var j := SqlExpression.JoinComma(parts);
      assert (j + ",")[..|j + ","| - 1] == j;
    }
  }

  /** One more property: the kept list grows by it unless it is shadowed. */
  lemma KeptStep(updates: seq<Property>, keys: seq<Property>, i: nat)
    requires i < |updates|
    ensures Shadowed(updates[i], keys) ==> Kept(updates[..i + 1], keys) == Kept(updates[..i], keys)
    ensures !Shadowed(updates[i], keys) ==> Kept(updates[..i + 1], keys) == Kept(updates[..i], keys) + [updates[i]]
  {
    assert updates[..i + 1][..i] == updates[..i];
    assert Kept(updates[..i], keys) + [] == Kept(updates[..i], keys);
  }

  /** One more part: the built text grows by it and a comma. */
  lemma TerminatedSnoc(show: Value -> string, ps: seq<Property>, p: Property)
    ensures Terminated(Assignments(show, ps + [p])) == Terminated(Assignments(show, ps)) + Assignment(show, p) + ","
  {
    assert Assignments(show, ps + [p])[..|ps|] == Assignments(show, ps);
  }

  /** The first StringBuilder loop: every update property no key shadows,
      as an assignment followed by a comma. */
  method AppendAssignments(show: Value -> string, d1: seq<Property>, d2: seq<Property>) returns (s1: string)
    ensures s1 == Terminated(Assignments(show, Kept(d1, d2)))
  {
    s1 := "";
    for i := 0 to |d1|
      invariant s1 == Terminated(Assignments(show, Kept(d1[..i], d2)))
    {
      KeptStep(d1, d2, i);
      if !Shadowed(d1[i], d2) {
        TerminatedSnoc(show, Kept(d1[..i], d2), d1[i]);
        s1 := s1 + Assignment(show, d1[i]) + ",";
      }
    }
    assert d1[..|d1|] == d1;
  }

  /** The second StringBuilder loop: every key property, unconditionally. */
  method AppendKeyTerms(show: Value -> string, d2: seq<Property>) returns (s2: string)
    ensures s2 == Terminated(Assignments(show, d2))
  {
    s2 := "";
    for i := 0 to |d2|
      invariant s2 == Terminated(Assignments(show, d2[..i]))
    {
      assert Assignments(show, d2[..i + 1])[..i] == Assignments(show, d2[..i]);
      s2 := s2 + Assignment(show, d2[i]) + ",";
    }
    assert d2[..|d2|] == d2;
  }

  /** Update(updateDict, keyDict): the two loops, the trims and the final
      format. A null object fails on `GetType()`. */
  method BuildUpdateStatement(show: Value -> string, table: string, updates: Option<seq<Property>>, keys: Option<seq<Property>>)
    returns (r: Result<string>)
    ensures updates.None? || keys.None? ==> r == Throws(NullReference)
    ensures updates.Some? && keys.Some? ==> r == Ok(UpdateText(show, table, updates.value, keys.value))
  {
    if updates.None? || keys.None? {
      return Throws(NullReference);
    }
    var s1 := AppendAssignments(show, updates.value, keys.value);
    var s2 := AppendKeyTerms(show, keys.value);
    TrimTerminated(Assignments(show, Kept(updates.value, keys.value)));
    TrimTerminated(Assignments(show, keys.value));
    r := Ok("update " + table + " set " + TrimLast(s1) + " where " + TrimLast(s2));
  }

  /** The set list names exactly the update properties no key shadows. */
  lemma UpdateSetsUnshadowed(show: Value -> string, updates: seq<Property>, keys: seq<Property>, p: Property)
    requires p in updates
    ensures Assignment(show, p) in Assignments(show, Kept(updates, keys)) || Shadowed(p, keys)
    ensures !Shadowed(p, keys) ==> exists i :: 0 <= i < |Kept(updates, keys)| && Kept(updates, keys)[i] == p
  {
    if !Shadowed(p, keys) {
      var kept := Kept(updates, keys);
      var i :| 0 <= i < |kept| && kept[i] == p;
      assert Assignments(show, kept)[i] == Assignment(show, p);
    }
  }

  /** String and DateTime values are quoted; every other value is not. */
  lemma AssignmentQuoting(show: Value -> string, name: string, t: ClrType, v: Value)
    ensures t == StringType || t == DateTimeType ==>
      Assignment(show, Property(name, t, v)) == name + "='" + Concatenated(show, v) + "'"
    ensures !(t == StringType || t == DateTimeType) ==>
      Assignment(show, Property(name, t, v)) == name + "=" + Concatenated(show, v)
  {
  }
}
