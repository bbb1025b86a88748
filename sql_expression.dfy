/** The expression-to-SQL compiler: a lambda `T => bool` whose body is a
    binary node is turned into a parenthesised SQL boolean fragment.
    Left operands are rendered as column names, right operands as values;
    values are obtained by compiling and invoking the sub-expression on the
    host, which the model leaves abstract. */
module SqlExpression {
  import opened Clr
  import opened Wrappers

  /** The node types a BinaryExpression can carry. */
  datatype ExpressionType =
    | Add | AddChecked | And | AndAlso | ArrayIndex | Coalesce | Divide
    | Equal | ExclusiveOr | GreaterThan | GreaterThanOrEqual | LeftShift
    | LessThan | LessThanOrEqual | Modulo | Multiply | MultiplyChecked
    | NotEqual | Or | OrElse | Power | RightShift | Subtract | SubtractChecked

  /** An expression tree. `owner` identifies the object a member is read
      from (a closure, the lambda parameter, a static class); it only matters
      to the host's evaluation. `Other` is every node kind the compiler does
      not recognise (parameters, conditionals, invocations, ...). */
  datatype Expr =
    | Binary(nodeType: ExpressionType, left: Expr, right: Expr)
    | Member(memberName: string, owner: nat)
    | MethodCall(methodName: string, arguments: seq<Expr>)
    | Constant(value: Value)
    | Unary(operand: Expr)
    | NewArray(expressions: seq<Expr>)
    | Other(kind: string)

  datatype Lambda = Lambda(body: Expr)

  /** What the compiler asks of the host runtime: evaluating a closed
      sub-expression (`Expression.Lambda(e).Compile().DynamicInvoke()`, which
      may throw) and `ToString` on a non-string value. */
  datatype Host = Host(evaluate: Expr -> Result<Value>, show: Value -> string)

  /** A C# string that may be null. Null contributes nothing when it is
      concatenated, appended or formatted. */
  datatype Fragment = Text(s: string) | NullString {
    function Of(): string {
      if Text? then s else ""
    }
  }

  predicate EndsWith(s: string, suffix: string) {
    |suffix| <= |s| && s[|s| - |suffix|..] == suffix
  }

  /** ExpressionTypeCast: the fixed operator table; null for anything else. */
  function OperatorText(t: ExpressionType): Fragment {
    match t
    case And | AndAlso => Text(" AND ")
    case Or | OrElse => Text(" Or ")
    case Equal => Text(" =")
    case GreaterThan => Text(" >")
    case GreaterThanOrEqual => Text(">=")
    case LessThan => Text("<")
    case LessThanOrEqual => Text("<=")
    case NotEqual => Text("<>")
    case Add | AddChecked => Text("+")
    case Subtract | SubtractChecked => Text("-")
    case Divide => Text("/")
    case Multiply | MultiplyChecked => Text("*")
    case _ => NullString
  }

  /** The four pseudo-methods recognised in left position. */
  predicate IsPseudoMethod(name: string) {
    name == "Like" || name == "NotLike" || name == "In" || name == "NotIn"
  }

  function PseudoMethodText(name: string, a: string, b: string): string
    requires IsPseudoMethod(name)
  {
    if name == "Like" then "(" + a + " like " + b + ")"
    else if name == "NotLike" then "(" + a + " Not like " + b + ")"
    else if name == "In" then a + " In (" + b + ")"
    else a + " Not In (" + b + ")"
  }

  /** A constant node: null is the text "null", a value type its ToString,
      a string (or, unreachably, a DateTime or char) its quoted text, and any
      other reference value null. */
  function ConstantText(h: Host, v: Value): Fragment {
    if v == Null then Text("null")
    else if IsValueType(v) then Text(h.show(v))
    else if v.Str? || v.DateTime? || v.Char? then Text("'" + ToStringOf(h.show, v) + "'")
    else NullString
  }

  /** The right-hand side keeps whatever the host evaluates the node to.
      For a member, `(int)obj` turns an enum into its underlying integer,
      and unboxing fails unless that integer is an Int32. */
  function Evaluated(h: Host, e: Expr, enumAsInt: bool): Result<Fragment> {
    match h.evaluate(e)
    case Throws(x) => Throws(x)
    case Ok(v) =>
      if enumAsInt && v.Enum? && !v.int32Based then Throws(InvalidCast)
      else
        var w := if enumAsInt && v.Enum? then Int(v.underlying) else v;
        Ok(Text(Concatenated(h.show, w)))
  }

  /** BinarExpressionProvider: "(" + left + operator + right + ")", except that
      a right operand rendering exactly "null" rewrites a trailing " =" into
      " is null", a trailing "<>" into " is not null", and is dropped otherwise. */
  function Provider(h: Host, left: Expr, right: Expr, t: ExpressionType): Result<string>
    decreases Binary(t, left, right), 0, 0
  {
    var l := Router(h, left, true);
    if l.Throws? then Throws(l.exception)
    else
      var sb := "(" + l.value.Of() + OperatorText(t).Of();
      var r := Router(h, right, false);
      if r.Throws? then Throws(r.exception)
      else Ok(AppendRight(sb, r.value) + ")")
  }

  function AppendRight(sb: string, right: Fragment): string {
    if right == Text("null") then
      if EndsWith(sb, " =") then sb[..|sb| - 2] + " is null"
      else if EndsWith(sb, "<>") then sb[..|sb| - 2] + " is not null"
      else sb
    else sb + right.Of()
  }

  /** ExpressionRouter: dispatch on the node kind; `isLeft` selects name
      position (true) or value position (false). */
  function Router(h: Host, e: Expr, isLeft: bool): Result<Fragment>
    decreases e, 1, 0
  {
    match e
    case Binary(t, l, r) =>
      var p := Provider(h, l, r, t);
      if p.Throws? then Throws(p.exception) else Ok(Text(p.value))
    case Member(name, _) =>
      if !isLeft then Evaluated(h, e, true) else Ok(Text(name))
    case NewArray(items) =>
      var joined := JoinItems(h, items, 0);
      if joined.Throws? then Throws(joined.exception)
      else if |joined.value| == 0 then Throws(ArgumentOutOfRange)  // ToString(0, -1)
      else Ok(Text(joined.value[..|joined.value| - 1]))
    case MethodCall(name, args) =>
      if !isLeft then Evaluated(h, e, false)
      else if !IsPseudoMethod(name) then Ok(NullString)
      else if |args| == 0 then Throws(ArgumentOutOfRange)
      else
        var a := Router(h, args[0], true);
        if a.Throws? then Throws(a.exception)
        else if |args| == 1 then Throws(ArgumentOutOfRange)
        else
          var b := Router(h, args[1], true);
          if b.Throws? then Throws(b.exception)
          else Ok(Text(PseudoMethodText(name, a.value.Of(), b.value.Of())))
    case Constant(v) => Ok(ConstantText(h, v))
    case Unary(operand) => Router(h, operand, false)
    case Other(_) => Ok(NullString)
  }

  /** The StringBuilder loop of the NewArray branch: every element, in name
      position, followed by a comma. */
  function JoinItems(h: Host, items: seq<Expr>, i: nat): Result<string>
    requires i <= |items|
    decreases NewArray(items), 0, |items| - i
  {
    if i == |items| then Ok("")
    else
      var x := Router(h, items[i], true);
      if x.Throws? then Throws(x.exception)
      else
        var rest := JoinItems(h, items, i + 1);
        if rest.Throws? then rest else Ok(x.value.Of() + "," + rest.value)
  }

  /** Where: the entry point; a body that is not a binary node yields "". */
  function Where(h: Host, f: Lambda): Result<string> {
    if f.body.Binary? then Provider(h, f.body.left, f.body.right, f.body.nodeType)
    else Ok("")
  }

  // ---------------------------------------------------------------------
  // Properties

  /** The comma-join of a list of texts: the reference the array rendering
      is compared with. */
  function JoinComma(parts: seq<string>): string {
    if |parts| == 0 then ""
    else if |parts| == 1 then parts[0]
    else parts[0] + "," + JoinComma(parts[1..])
  }

  lemma WhereShape(h: Host, f: Lambda)
    ensures !f.body.Binary? ==> Where(h, f) == Ok("")
    ensures f.body.Binary? ==> Where(h, f) == Provider(h, f.body.left, f.body.right, f.body.nodeType)
  {
  }

  /** Every compiled binary node is wrapped in one pair of parentheses. */
  lemma ProviderParenthesized(h: Host, left: Expr, right: Expr, t: ExpressionType)
    ensures Provider(h, left, right, t).Ok? ==>
      var s := Provider(h, left, right, t).value;
      |s| >= 2 && s[0] == '(' && s[|s| - 1] == ')'
  {
    var l := Router(h, left, true);
    var r := Router(h, right, false);
    if l.Ok? && r.Ok? {
      var sb := "(" + l.value.Of() + OperatorText(t).Of();
      assert sb[0] == '(';
      AppendRightKeepsOpening(sb, r.value);
    }
  }

  lemma AppendRightKeepsOpening(sb: string, right: Fragment)
    requires |sb| >= 1 && sb[0] == '('
    ensures |AppendRight(sb, right)| >= 1 && AppendRight(sb, right)[0] == '('
  {
    if right == Text("null") && (EndsWith(sb, " =") || EndsWith(sb, "<>")) {
      // the suffix starts with ' ' or '<', so it cannot reach the opening "("
      var k := |sb| - 2;
      assert sb[k] == sb[k..][0];
      assert sb[k] != '(';
    }
  }

  /** The operator table: seventeen node types have a symbol, the rest
      render as null. */
  lemma OperatorTableDomain(t: ExpressionType)
    ensures OperatorText(t) == NullString <==>
      (t == ArrayIndex || t == Coalesce || t == ExclusiveOr || t == LeftShift
       || t == Modulo || t == Power || t == RightShift)
  {
    match t
    case _ =>
  }

  /** The symbols of the logical and comparison operators. */
  lemma ComparisonOperatorTable()
    ensures OperatorText(And) == OperatorText(AndAlso) == Text(" AND ")
    ensures OperatorText(Or) == OperatorText(OrElse) == Text(" Or ")
    ensures OperatorText(Equal) == Text(" =") && OperatorText(NotEqual) == Text("<>")
    ensures OperatorText(GreaterThan) == Text(" >") && OperatorText(GreaterThanOrEqual) == Text(">=")
    ensures OperatorText(LessThan) == Text("<") && OperatorText(LessThanOrEqual) == Text("<=")
  {
  }

  /** The arithmetic symbols; checked variants share their unchecked symbol. */
  lemma ArithmeticOperatorTable()
    ensures OperatorText(Add) == OperatorText(AddChecked) == Text("+")
    ensures OperatorText(Subtract) == OperatorText(SubtractChecked) == Text("-")
    ensures OperatorText(Multiply) == OperatorText(MultiplyChecked) == Text("*")
    ensures OperatorText(Divide) == Text("/")
  {
  }

  /** Rewriting the literal null after a comparison: the text before the
      two-character operator is kept and the operator is replaced. */
  lemma RewriteAfter(lt: string, op: string, replacement: string)
    requires |op| == 2
    ensures ("(" + lt + op)[..|"(" + lt + op| - 2] + replacement + ")" == "(" + lt + replacement + ")"
    ensures ("(" + lt + op)[|"(" + lt + op| - 2..] == op
  {
    var sb := "(" + lt + op;
    assert sb[..|sb| - 2] == "(" + lt;
  }

  /** One binary node whose operands both compile. */
  lemma ProviderOf(h: Host, left: Expr, right: Expr, t: ExpressionType)
    requires Router(h, left, true).Ok? && Router(h, right, false).Ok?
    ensures Provider(h, left, right, t) ==
      Ok(AppendRight("(" + Router(h, left, true).value.Of() + OperatorText(t).Of(), Router(h, right, false).value) + ")")
  {
  }

  /** The string step of `L == null`: the trailing " =" becomes " is null". */
  lemma NullAfterEqual(lt: string)
    ensures AppendRight("(" + lt + " =", Text("null")) + ")" == "(" + lt + " is null)"
  {
    var sb := "(" + lt + " =";
    RewriteAfter(lt, " =", " is null");
    assert AppendRight(sb, Text("null")) == sb[..|sb| - 2] + " is null";
  }

  /** The string step of `L != null`: the trailing "<>" becomes " is not null". */
  lemma NullAfterNotEqual(lt: string)
    ensures AppendRight("(" + lt + "<>", Text("null")) + ")" == "(" + lt + " is not null)"
  {
    var sb := "(" + lt + "<>";
    assert !EndsWith(sb, " =") by { assert sb[|sb| - 1] == '>'; }
    RewriteAfter(lt, "<>", " is not null");
    assert AppendRight(sb, Text("null")) == sb[..|sb| - 2] + " is not null";
  }

  /** `L == null` compiles to "(L is null)". */
  lemma NullEquality(h: Host, left: Expr, right: Expr)
    requires Router(h, left, true).Ok?
    requires Router(h, right, false) == Ok(Text("null"))
    ensures Provider(h, left, right, Equal) == Ok("(" + Router(h, left, true).value.Of() + " is null)")
  {
    var lt := Router(h, left, true).value.Of();
    assert OperatorText(Equal).Of() == " =";
    ProviderOf(h, left, right, Equal);
    NullAfterEqual(lt);
  }

  /** `L != null` compiles to "(L is not null)". */
  lemma NullInequality(h: Host, left: Expr, right: Expr)
    requires Router(h, left, true).Ok?
    requires Router(h, right, false) == Ok(Text("null"))
    ensures Provider(h, left, right, NotEqual) == Ok("(" + Router(h, left, true).value.Of() + " is not null)")
  {
    var lt := Router(h, left, true).value.Of();
    assert OperatorText(NotEqual).Of() == "<>";
    ProviderOf(h, left, right, NotEqual);
    NullAfterNotEqual(lt);
  }

  /** No symbol of the table other than " =" and "<>" leaves either of
      them at the end of the text built so far. */
  lemma NoRewriteSuffix(p: string, op: string)
    requires op == " AND " || op == " Or " || op == " >" || op == ">=" || op == "<"
      || op == "<=" || op == "+" || op == "-" || op == "/" || op == "*"
    ensures !EndsWith(p + op, " =") && !EndsWith(p + op, "<>")
  {
    var sb := p + op;
    assert sb[|sb| - 1] == op[|op| - 1];
    if |op| >= 2 {
      assert sb[|sb| - 2] == op[|op| - 2];
    }
    if |sb| >= 2 {
      var tail := sb[|sb| - 2..];
      assert tail[0] == sb[|sb| - 2] && tail[1] == sb[|sb| - 1];
    }
  }

  /** With any other operator from the table, a "null" right operand is
      dropped and nothing is rewritten. */
  lemma NullDroppedForOtherOperators(h: Host, left: Expr, right: Expr, t: ExpressionType)
    requires Router(h, left, true).Ok?
    requires Router(h, right, false) == Ok(Text("null"))
    requires t != Equal && t != NotEqual && OperatorText(t) != NullString
    ensures Provider(h, left, right, t) ==
      Ok("(" + Router(h, left, true).value.Of() + OperatorText(t).s + ")")
  {
    var lt := Router(h, left, true).value.Of();
    var op := OperatorText(t).s;
    assert op == " AND " || op == " Or " || op == " >" || op == ">=" || op == "<"
      || op == "<=" || op == "+" || op == "-" || op == "/" || op == "*" by {
      match t
      case _ =>
    }
    NoRewriteSuffix("(" + lt, op);
    assert AppendRight("(" + lt + op, Text("null")) == "(" + lt + op;
    ProviderOf(h, left, right, t);
  }

  /** Any right operand other than the text "null" is appended as it is. */
  lemma NonNullRightAppended(h: Host, left: Expr, right: Expr, t: ExpressionType)
    requires Router(h, left, true).Ok? && Router(h, right, false).Ok?
    requires Router(h, right, false).value != Text("null")
    ensures Provider(h, left, right, t) ==
      Ok("(" + Router(h, left, true).value.Of() + OperatorText(t).Of()
         + Router(h, right, false).value.Of() + ")")
  {
  }

  /** Members: a bare name on the left, the evaluated value on the right with
      Int32-based enums replaced by their underlying integer and other enums
      failing the cast; unary nodes and unknown nodes; nested binaries
      recurse. */
  lemma NodeRendering(h: Host, e: Expr)
    ensures e.Member? ==> Router(h, e, true) == Ok(Text(e.memberName))
    ensures e.Member? && h.evaluate(e).Ok? && h.evaluate(e).value.Enum? && h.evaluate(e).value.int32Based ==>
      Router(h, e, false) == Ok(Text(h.show(Int(h.evaluate(e).value.underlying))))
    ensures e.Member? && h.evaluate(e).Ok? && h.evaluate(e).value.Enum? && !h.evaluate(e).value.int32Based ==>
      Router(h, e, false) == Throws(InvalidCast)
    ensures e.Member? && h.evaluate(e).Ok? && !h.evaluate(e).value.Enum? ==>
      Router(h, e, false) == Ok(Text(Concatenated(h.show, h.evaluate(e).value)))
    ensures e.Member? && h.evaluate(e).Throws? ==>
      Router(h, e, false) == Throws(h.evaluate(e).exception)
    ensures e.Unary? ==> Router(h, e, true) == Router(h, e.operand, false)
    ensures e.Other? ==> Router(h, e, true) == Router(h, e, false) == Ok(NullString)
    ensures e.Binary? && Provider(h, e.left, e.right, e.nodeType).Ok? ==>
      Router(h, e, false) == Router(h, e, true) == Ok(Text(Provider(h, e.left, e.right, e.nodeType).value))
  {
  }

  /** Constants: every value type, a Guid or a DateTime or a char included,
      is its unquoted ToString (DateTime and char reach the value-type branch
      before the quoting one); strings are quoted; other references are null. */
  lemma ConstantRendering(h: Host, v: Value, isLeft: bool)
    ensures v == Null ==> Router(h, Constant(v), isLeft) == Ok(Text("null"))
    ensures IsValueType(v) ==> Router(h, Constant(v), isLeft) == Ok(Text(h.show(v)))
    ensures v.Str? ==> Router(h, Constant(v), isLeft) == Ok(Text("'" + v.s + "'"))
    ensures v.OtherObject? ==> Router(h, Constant(v), isLeft) == Ok(NullString)
  {
  }

  /** Method calls: on the right the call is evaluated, not translated; on the
      left the four pseudo-methods become SQL and any other name null. */
  lemma MethodCallRendering(h: Host, name: string, a: Expr, b: Expr)
    requires Router(h, a, true).Ok? && Router(h, b, true).Ok?
    ensures var ta, tb := Router(h, a, true).value.Of(), Router(h, b, true).value.Of();
      && (name == "Like" ==> Router(h, MethodCall(name, [a, b]), true) == Ok(Text("(" + ta + " like " + tb + ")")))
      && (name == "NotLike" ==> Router(h, MethodCall(name, [a, b]), true) == Ok(Text("(" + ta + " Not like " + tb + ")")))
      && (name == "In" ==> Router(h, MethodCall(name, [a, b]), true) == Ok(Text(ta + " In (" + tb + ")")))
      && (name == "NotIn" ==> Router(h, MethodCall(name, [a, b]), true) == Ok(Text(ta + " Not In (" + tb + ")")))
    ensures !IsPseudoMethod(name) ==> Router(h, MethodCall(name, [a, b]), true) == Ok(NullString)
    ensures h.evaluate(MethodCall(name, [a, b])).Ok? ==>
      Router(h, MethodCall(name, [a, b]), false) ==
        Ok(Text(Concatenated(h.show, h.evaluate(MethodCall(name, [a, b])).value)))
  {
  }

  /** A captured array variable is a member node, and array elements are
      rendered in name position, so `In(x.Id, ids)` names the variable
      instead of listing its contents. */
  lemma InWithCapturedArray(h: Host, column: string, variable: string, c: nat, v: nat)
    ensures Router(h, MethodCall("In", [Member(column, c), Member(variable, v)]), true)
      == Ok(Text(column + " In (" + variable + ")"))
  {
  }

  /** The element texts of an array literal, each rendered in name position. */
  function ItemTexts(h: Host, items: seq<Expr>): seq<string>
    requires forall i :: 0 <= i < |items| ==> Router(h, items[i], true).Ok?
  {
    seq(|items|, i requires 0 <= i < |items| => Router(h, items[i], true).value.Of())
  }

  lemma {:induction false} JoinItemsIsJoin(h: Host, items: seq<Expr>, i: nat)
    requires i < |items|
    requires forall k :: 0 <= k < |items| ==> Router(h, items[k], true).Ok?
    ensures JoinItems(h, items, i) == Ok(JoinComma(ItemTexts(h, items)[i..]) + ",")
    decreases |items| - i
  {
    var parts := ItemTexts(h, items);
    if i == |items| - 1 {
      assert parts[i..] == [parts[i]];
      assert JoinItems(h, items, i + 1) == Ok("");
      assert parts[i] + "," + "" == parts[i] + ",";
    } else {
      JoinItemsIsJoin(h, items, i + 1);
      assert parts[i..][1..] == parts[i + 1..];
      assert parts[i..][0] == parts[i] == Router(h, items[i], true).value.Of();
      assert JoinComma(parts[i..]) == parts[i] + "," + JoinComma(parts[i + 1..]);
      var x, rest := parts[i], JoinComma(parts[i + 1..]);
      assert x + "," + (rest + ",") == (x + "," + rest) + ",";
    }
  }

  /** An array literal renders as the comma-join of its elements with no
      trailing comma; an empty one throws. */
  lemma NewArrayRendering(h: Host, items: seq<Expr>, isLeft: bool)
    requires forall k :: 0 <= k < |items| ==> Router(h, items[k], true).Ok?
    ensures |items| == 0 ==> Router(h, NewArray(items), isLeft) == Throws(ArgumentOutOfRange)
    ensures |items| > 0 ==> Router(h, NewArray(items), isLeft) == Ok(Text(JoinComma(ItemTexts(h, items))))
  {
    if |items| > 0 {
      JoinItemsIsJoin(h, items, 0);
      var j := JoinComma(ItemTexts(h, items));
      assert ItemTexts(h, items)[0..] == ItemTexts(h, items);
      assert (j + ",")[..|j + ","| - 1] == j;
    }
  }

  lemma AgeAbove18(h: Host, a: nat)
    requires h.show(Int(18)) == "18"
    ensures Router(h, Binary(GreaterThan, Member("Age", a), Constant(Int(18))), true) == Ok(Text("(Age >18)"))
  {
    assert Router(h, Member("Age", a), true) == Ok(Text("Age"));
    assert Router(h, Constant(Int(18)), false) == Ok(Text("18"));
    assert AppendRight("(" + "Age" + " >", Text("18")) == "(" + "Age" + " >" + "18";
    assert Provider(h, Member("Age", a), Constant(Int(18)), GreaterThan)
      == Ok("(" + "Age" + " >" + "18" + ")");
    assert "(" + "Age" + " >" + "18" + ")" == "(Age >18)";
  }

  lemma NameNullLiteral()
    ensures "(" + "Name" + " is null)" == "(Name is null)"
  {
  }

  lemma NameIsNull(h: Host, n: nat)
    ensures Router(h, Binary(Equal, Member("Name", n), Constant(Null)), false) == Ok(Text("(Name is null)"))
  {
    assert Router(h, Member("Name", n), true) == Ok(Text("Name"));
    assert Router(h, Constant(Null), false) == Ok(Text("null"));
    NullEquality(h, Member("Name", n), Constant(Null));
    NameNullLiteral();
    assert Provider(h, Member("Name", n), Constant(Null), Equal) == Ok("(Name is null)");
  }

  /** `x => x.Age > 18 && x.Name == null` compiles to the text
      ((Age >18) AND (Name is null)): every binary node is parenthesised and
      the spacing comes from the operator table. */
  lemma AgeAndNullNameExample(h: Host, a: nat, n: nat)
    requires h.show(Int(18)) == "18"
    ensures Where(h, Lambda(Binary(AndAlso,
                           Binary(GreaterThan, Member("Age", a), Constant(Int(18))),
                           Binary(Equal, Member("Name", n), Constant(Null)))))
      == Ok("(" + "(Age >18)" + " AND " + "(Name is null)" + ")")
  {
    var ageGt := Binary(GreaterThan, Member("Age", a), Constant(Int(18)));
    var nameNull := Binary(Equal, Member("Name", n), Constant(Null));
    AgeAbove18(h, a);
    NameIsNull(h, n);
    assert Provider(h, ageGt, nameNull, AndAlso)
      == Ok(AppendRight("(" + "(Age >18)" + " AND ", Text("(Name is null)")) + ")");
    assert AppendRight("(" + "(Age >18)" + " AND ", Text("(Name is null)"))
      == "(" + "(Age >18)" + " AND " + "(Name is null)";
  }
}
