/** The reflection emitter: for a list of property descriptors it emits the
    IL of a setter delegate (copy an object[] into the properties, skipping
    nulls) and of a getter delegate (read the properties into a new
    object[]). The model keeps the emitted opcode sequence and, beside it,
    the intended effect of each delegate on the object's property slots. */
module Reflector {
  import opened Clr
  import opened Wrappers

  /** A PropertyInfo: its name, declared type (and whether that is a value
      type), the type it was obtained from, and whether it has a public
      setter and getter. */
  datatype PropertyInfo = PropertyInfo(
    name: string, propertyType: ClrType, isValueType: bool, reflectedType: ClrType,
    hasSetter: bool, hasGetter: bool)

  datatype Accessor = Setter(setterOf: string) | Getter(getterOf: string)

  /** The opcodes the emitters use, with their operands. Labels are the
      numbers DefineLabel hands out, locals their declaration indices. */
  datatype Op =
    | Ldarg_0 | Ldarg_1
    | Ldloc_0 | Stloc_0
    | Ldloc(loadLocal: nat) | Stloc(storeLocal: nat)
    | Ldc_I4_M1 | Ldc_I4_0 | Ldc_I4_1 | Ldc_I4_2 | Ldc_I4_3 | Ldc_I4_4 | Ldc_I4_5 | Ldc_I4_6 | Ldc_I4_7 | Ldc_I4_8
    | Ldc_I4_S(shortOperand: int)
    | Ldc_I4(operand: int)
    | Ldelem_Ref | Stelem_Ref
    | Ldnull | Ceq
    | Brtrue_S(target: nat)
    | MarkLabel(marked: nat)
    | Unbox_Any(unboxTo: ClrType)
    | Box(boxFrom: ClrType)
    | Newarr(elementType: ClrType)
    | Callvirt(accessor: Accessor)
    | Ret

  const ObjectType := NamedType("System.Object")

  /** The Int32 an op pushes, if it is a constant load with a valid operand. */
  function Loaded(op: Op): Option<int> {
    match op
    case Ldc_I4_M1 => Some(-1)
    case Ldc_I4_0 => Some(0)
    case Ldc_I4_1 => Some(1)
    case Ldc_I4_2 => Some(2)
    case Ldc_I4_3 => Some(3)
    case Ldc_I4_4 => Some(4)
    case Ldc_I4_5 => Some(5)
    case Ldc_I4_6 => Some(6)
    case Ldc_I4_7 => Some(7)
    case Ldc_I4_8 => Some(8)
    case Ldc_I4_S(v) => if -128 <= v <= 127 then Some(v) else None
    case Ldc_I4(v) => if -0x8000_0000 <= v < 0x8000_0000 then Some(v) else None
    case _ => None
  }

  /** Encoded size in bytes of a constant load: opcode plus operand. */
  function LoadSize(op: Op): nat {
    match op
    case Ldc_I4_S(_) => 2
    case Ldc_I4(_) => 5
    case _ => 1
  }

  /** Ldc: the dedicated opcodes for -1..8, the short form for the rest of
      the signed byte range, the four-byte form otherwise. */
  function Ldc(value: int): Op {
    match value
    case -1 => Ldc_I4_M1
    case 0 => Ldc_I4_0
    case 1 => Ldc_I4_1
    case 2 => Ldc_I4_2
    case 3 => Ldc_I4_3
    case 4 => Ldc_I4_4
    case 5 => Ldc_I4_5
    case 6 => Ldc_I4_6
    case 7 => Ldc_I4_7
    case 8 => Ldc_I4_8
    case _ => if value > -129 && value < 128 then Ldc_I4_S(value) else Ldc_I4(value)
  }

  /** GetClassTypeByProperty: the type the properties were obtained from
      (their ReflectedType, not the class declaring them), taken from the
      first one; a null or empty list is refused. */
  function ClassTypeOf(infos: Option<seq<PropertyInfo>>): (r: Result<ClrType>)
    ensures r.Throws? <==> infos.None? || |infos.value| == 0
    ensures r.Throws? ==> r.exception == ArgumentNull("infos")
    ensures r.Ok? ==> r.value == infos.value[0].reflectedType
    ensures r.Ok? ==> exists p :: p in infos.value && p.reflectedType == r.value
    ensures r.Ok? && (forall p, q :: p in infos.value && q in infos.value ==> p.reflectedType == q.reflectedType) ==>
      forall p :: p in infos.value ==> p.reflectedType == r.value
  {
    if infos.None? || |infos.value| <= 0 then Throws(ArgumentNull("infos"))
    else Ok(infos.value[0].reflectedType)
  }

  /** The setter's block for property i: skip to the end label when
      values[i] is null, otherwise unbox it and call the setter. */
  function SetterBlock(i: nat, p: PropertyInfo): seq<Op> {
    [Ldarg_1, Ldc(i), Ldelem_Ref, Ldnull, Ceq, Brtrue_S(i),
     Ldloc_0, Ldarg_1, Ldc(i), Ldelem_Ref, Unbox_Any(p.propertyType), Callvirt(Setter(p.name)),
     MarkLabel(i)]
  }

  function SetterBlocks(infos: seq<PropertyInfo>): seq<Op>
    decreases |infos|
  {
    if |infos| == 0 then [] else SetterBlocks(infos[..|infos| - 1]) + SetterBlock(|infos| - 1, infos[|infos| - 1])
  }

  lemma SetterBlocksStep(infos: seq<PropertyInfo>, i: nat)
    requires i < |infos|
    ensures SetterBlocks(infos[..i + 1]) == SetterBlocks(infos[..i]) + SetterBlock(i, infos[i])
  {
    assert infos[..i + 1][..i] == infos[..i];
  }

  function SetterPrologue(classType: ClrType): seq<Op> {
    [Ldarg_0, Unbox_Any(classType), Stloc_0]
  }

  /** The getter's block for property i: read it, box a value type, and
      store it in slot i of the result array. */
  function GetterBlock(i: nat, p: PropertyInfo): seq<Op> {
    [Ldloc(2), Callvirt(Getter(p.name))]
      + (if p.isValueType then [Box(p.propertyType)] else [])
      + [Stloc(0), Ldloc(1), Ldc(i), Ldloc(0), Stelem_Ref]
  }

  function GetterBlocks(infos: seq<PropertyInfo>): seq<Op>
    decreases |infos|
  {
    if |infos| == 0 then [] else GetterBlocks(infos[..|infos| - 1]) + GetterBlock(|infos| - 1, infos[|infos| - 1])
  }

  lemma GetterBlocksStep(infos: seq<PropertyInfo>, i: nat)
    requires i < |infos|
    ensures GetterBlocks(infos[..i + 1]) == GetterBlocks(infos[..i]) + GetterBlock(i, infos[i])
  {
    assert infos[..i + 1][..i] == infos[..i];
  }

  /** Locals: 0 the temporary, 1 the result array, 2 the typed object. */
  function GetterPrologue(classType: ClrType, count: nat): seq<Op> {
    [Ldarg_0, Unbox_Any(classType), Stloc(2), Ldc(count), Newarr(ObjectType), Stloc(1)]
  }

  predicate AllSetters(infos: seq<PropertyInfo>) {
    forall k :: 0 <= k < |infos| ==> infos[k].hasSetter
  }

  predicate AllGetters(infos: seq<PropertyInfo>) {
    forall k :: 0 <= k < |infos| ==> infos[k].hasGetter
  }

  /** An ILGenerator: the code emitted so far, the labels defined and the
      locals declared. */
  class ILGenerator {
    var code: seq<Op>
    var labels: nat
    var locals: seq<ClrType>

    constructor ()
      ensures code == [] && labels == 0 && locals == []
    {
      code := [];
      labels := 0;
      locals := [];
    }

    method Emit(op: Op)
      modifies this
      ensures code == old(code) + [op] && labels == old(labels) && locals == old(locals)
    {
      code := code + [op];
    }

    method DefineLabel() returns (defined: nat)
      modifies this
      ensures defined == old(labels) && labels == old(labels) + 1
      ensures code == old(code) && locals == old(locals)
    {
      defined := labels;
      labels := labels + 1;
    }

    method Mark(l: nat)
      modifies this
      ensures code == old(code) + [MarkLabel(l)] && labels == old(labels) && locals == old(locals)
    {
      code := code + [MarkLabel(l)];
    }

    method DeclareLocal(t: ClrType) returns (index: nat)
      modifies this
      ensures index == |old(locals)| && locals == old(locals) + [t]
      ensures code == old(code) && labels == old(labels)
    {
      index := |locals|;
      locals := locals + [t];
    }
  }

  /** The null test of the setter loop: load values[i] and branch to `end`
      when it is null. */
  method EmitNullTest(il: ILGenerator, i: nat, end: nat)
    modifies il
    ensures il.code == old(il.code) + [Ldarg_1, Ldc(i), Ldelem_Ref, Ldnull, Ceq, Brtrue_S(end)]
    ensures il.labels == old(il.labels)
  {
    il.Emit(Ldarg_1);
    il.Emit(Ldc(i));
    il.Emit(Ldelem_Ref);
    il.Emit(Ldnull);
    il.Emit(Ceq);
    il.Emit(Brtrue_S(end));
  }

  /** The setter call's arguments: the typed object and values[i], unboxed. */
  method EmitSetterArguments(il: ILGenerator, i: nat, propType: ClrType)
    modifies il
    ensures il.code == old(il.code) + [Ldloc_0, Ldarg_1, Ldc(i), Ldelem_Ref, Unbox_Any(propType)]
    ensures il.labels == old(il.labels)
  {
    il.Emit(Ldloc_0);
    il.Emit(Ldarg_1);
    il.Emit(Ldc(i));
    il.Emit(Ldelem_Ref);
    il.Emit(Unbox_Any(propType));
  }

  /** One iteration of the setter loop: the block for property i, or
      false where Emit would throw for a missing setter. */
  method EmitSetterBlock(il: ILGenerator, i: nat, p: PropertyInfo) returns (emitted: bool)
    requires il.labels == i
    modifies il
    ensures emitted == p.hasSetter && il.labels == i + 1
    ensures emitted ==> il.code == old(il.code) + SetterBlock(i, p)
  {
    var end := il.DefineLabel();
    var propType := p.propertyType;
    EmitNullTest(il, i, end);
    EmitSetterArguments(il, i, propType);
    if !p.hasSetter {
      return false;
    }
    ghost var before := il.code;
    il.Emit(Callvirt(Setter(p.name)));
    il.Mark(end);
    assert il.code == before + [Callvirt(Setter(p.name)), MarkLabel(i)];
    emitted := true;
  }

  /** One iteration of the getter loop: the block for property i, or
      false where Emit would throw for a missing getter. */
  method EmitGetterBlock(il: ILGenerator, i: nat, p: PropertyInfo, obj: nat, result: nat, tmp: nat) returns (emitted: bool)
    requires obj == 2 && result == 1 && tmp == 0
    modifies il
    ensures emitted == p.hasGetter
    ensures emitted ==> il.code == old(il.code) + GetterBlock(i, p)
  {
    il.Emit(Ldloc(obj));
    if !p.hasGetter {
      return false;
    }
    il.Emit(Callvirt(Getter(p.name)));
    if p.isValueType {
      il.Emit(Box(p.propertyType));
    }
    il.Emit(Stloc(tmp));
    il.Emit(Ldloc(result));
    il.Emit(Ldc(i));
    il.Emit(Ldloc(tmp));
    il.Emit(Stelem_Ref);
    emitted := true;
  }

  /** CreatePropertiesAction: the setter's IL. No descriptors is the
      ArgumentNullException for "infos"; a property without a public setter
      makes Emit throw the one for "meth". */
  method CreatePropertiesAction(infos: Option<seq<PropertyInfo>>) returns (r: Result<seq<Op>>)
    ensures ClassTypeOf(infos).Throws? ==> r == Throws(ArgumentNull("infos"))
    ensures ClassTypeOf(infos).Ok? && !AllSetters(infos.value) ==> r == Throws(ArgumentNull("meth"))
    ensures ClassTypeOf(infos).Ok? && AllSetters(infos.value) ==>
      r == Ok(SetterPrologue(infos.value[0].reflectedType) + SetterBlocks(infos.value) + [Ret])
  {
    var classType := ClassTypeOf(infos);
    if classType.Throws? {
      return Throws(classType.exception);
    }
    var il := new ILGenerator();
    EmitSetterPrologue(il, classType.value);
    var ok := EmitSetterLoop(il, infos.value);
    if !ok {
      return Throws(ArgumentNull("meth"));
    }
    il.Emit(Ret);
    r := Ok(il.code);
  }

  /** The code before the setter loop: the target, unboxed into local 0. */
  method EmitSetterPrologue(il: ILGenerator, classType: ClrType)
    requires il.code == [] && il.labels == 0
    modifies il
    ensures il.code == SetterPrologue(classType) && il.labels == 0
  {
    var obj := il.DeclareLocal(classType);
    il.Emit(Ldarg_0);
    il.Emit(Unbox_Any(classType));
    il.Emit(Stloc_0);
  }

  /** The setter loop: one block per property, or false at the first
      property without a setter. */
  method EmitSetterLoop(il: ILGenerator, properties: seq<PropertyInfo>) returns (ok: bool)
    requires il.labels == 0
    modifies il
    ensures ok == AllSetters(properties)
    ensures ok ==> il.code == old(il.code) + SetterBlocks(properties)
  {
    for i := 0 to |properties|
      invariant il.code == old(il.code) + SetterBlocks(properties[..i])
      invariant il.labels == i
      invariant forall k :: 0 <= k < i ==> properties[k].hasSetter
    {
      var emitted := EmitSetterBlock(il, i, properties[i]);
      if !emitted {
        return false;
      }
      SetterBlocksStep(properties, i);
    }
    assert properties[..|properties|] == properties;
    ok := true;
  }


  /** The getter's locals and the code before its loop: the typed object
      and a new object[] of `count` slots. */
  method EmitGetterPrologue(il: ILGenerator, classType: ClrType, count: nat) returns (tmp: nat, result: nat, obj: nat)
    requires il.code == [] && il.locals == []
    modifies il
    ensures tmp == 0 && result == 1 && obj == 2
    ensures il.code == GetterPrologue(classType, count)
  {
    tmp := il.DeclareLocal(ObjectType);
    result := il.DeclareLocal(NamedType("System.Object[]"));
    obj := il.DeclareLocal(classType);
    il.Emit(Ldarg_0);
    il.Emit(Unbox_Any(classType));
    il.Emit(Stloc(obj));
    il.Emit(Ldc(count));
    il.Emit(Newarr(ObjectType));
    il.Emit(Stloc(result));
  }

  /** CreatePropertiesFunc: the getter's IL, with the same failures for no
      descriptors and for a property without a public getter. */
  method CreatePropertiesFunc(infos: Option<seq<PropertyInfo>>) returns (r: Result<seq<Op>>)
    ensures ClassTypeOf(infos).Throws? ==> r == Throws(ArgumentNull("infos"))
    ensures ClassTypeOf(infos).Ok? && !AllGetters(infos.value) ==> r == Throws(ArgumentNull("meth"))
    ensures ClassTypeOf(infos).Ok? && AllGetters(infos.value) ==>
      r == Ok(GetterPrologue(infos.value[0].reflectedType, |infos.value|) + GetterBlocks(infos.value) + [Ldloc(1), Ret])
  {
    var classType := ClassTypeOf(infos);
    if classType.Throws? {
      return Throws(classType.exception);
    }
    var il := new ILGenerator();
    var tmp, result, obj := EmitGetterPrologue(il, classType.value, |infos.value|);
    var ok := EmitGetterLoop(il, infos.value, obj, result, tmp);
    if !ok {
      return Throws(ArgumentNull("meth"));
    }
    ghost var body := il.code;
    il.Emit(Ldloc(result));
    il.Emit(Ret);
    assert il.code == body + [Ldloc(1), Ret];
    r := Ok(il.code);
  }

  /** The getter loop: one block per property, or false at the first
      property without a getter. */
  method EmitGetterLoop(il: ILGenerator, properties: seq<PropertyInfo>, obj: nat, result: nat, tmp: nat) returns (ok: bool)
    requires obj == 2 && result == 1 && tmp == 0
    modifies il
    ensures ok == AllGetters(properties)
    ensures ok ==> il.code == old(il.code) + GetterBlocks(properties)
  {
    for i := 0 to |properties|
      invariant il.code == old(il.code) + GetterBlocks(properties[..i])
      invariant forall k :: 0 <= k < i ==> properties[k].hasGetter
    {
      var emitted := EmitGetterBlock(il, i, properties[i], obj, result, tmp);
      if !emitted {
        return false;
      }
      GetterBlocksStep(properties, i);
    }
    assert properties[..|properties|] == properties;
    ok := true;
  }


  /** What the setter delegate does to an object whose property slots are
      `fields` (slot i is infos[i]'s property): in index order, a non-null
      values[i] is assigned and a null one skipped; reading past the end of
      `values` stops it with IndexOutOfRangeException. */
  method InvokeSetter(infos: seq<PropertyInfo>, fields: array<Value>, values: array<Value>) returns (r: Result<()>)
    requires fields.Length == |infos| && fields != values
    modifies fields
    ensures forall i :: 0 <= i < fields.Length ==>
      fields[i] == if i < values.Length && values[i] != Null then values[i] else old(fields[i])
    ensures r == if values.Length < |infos| then Throws(IndexOutOfRange) else Ok(())
  {
    for i := 0 to |infos|
      invariant i <= values.Length
      invariant forall k :: 0 <= k < fields.Length ==>
        fields[k] == if k < i && values[k] != Null then values[k] else old(fields[k])
    {
      if i == values.Length {
        return Throws(IndexOutOfRange);
      }
      if values[i] != Null {
        fields[i] := values[i];
      }
    }
    r := Ok(());
    assert r.value == ();
  }

  /** What the getter delegate returns: a new array of |infos| slots, slot
      i holding property i's value (boxing does not change a Value). */
  method InvokeGetter(infos: seq<PropertyInfo>, fields: array<Value>) returns (result: array<Value>)
    requires fields.Length == |infos|
    ensures fresh(result) && result.Length == |infos|
    ensures forall i :: 0 <= i < |infos| ==> result[i] == fields[i]
  {
    result := new Value[|infos|](_ => Null);
    for i := 0 to |infos|
      invariant forall k :: 0 <= k < i ==> result[k] == fields[k]
    {
      result[i] := fields[i];
    }
  }

  // ---------------------------------------------------------------------
  // Properties

  /** Ldc loads exactly the constant it was given. */
  lemma LdcLoads(value: int)
    requires -0x8000_0000 <= value < 0x8000_0000
    ensures Loaded(Ldc(value)) == Some(value)
  {
  }

  /** Ldc uses the short form exactly for the signed bytes outside -1..8,
      and the four-byte form exactly outside the signed byte range. */
  lemma LdcForm(value: int)
    ensures Ldc(value).Ldc_I4_S? <==> -128 <= value <= 127 && (value < -1 || 8 < value)
    ensures Ldc(value).Ldc_I4? <==> value < -128 || 127 < value
    ensures LoadSize(Ldc(value)) == 1 <==> -1 <= value <= 8
  {
  }

  /** No constant load of the same value is shorter than Ldc's. */
  lemma LdcShortest(value: int, op: Op)
    requires Loaded(op) == Some(value)
    ensures LoadSize(Ldc(value)) <= LoadSize(op)
  {
  }

  lemma SliceOfLeft<T>(a: seq<T>, b: seq<T>, lo: nat, hi: nat)
    requires lo <= hi <= |a|
    ensures (a + b)[lo..hi] == a[lo..hi]
  {
  }

  lemma SliceOfRight<T>(a: seq<T>, b: seq<T>)
    ensures (a + b)[|a|..|a| + |b|] == b
  {
  }

  /** The setter body is one 13-op block per property, block k at 13*k,
      branching on labelk and marking it at its end. */
  lemma {:induction false} SetterLayout(infos: seq<PropertyInfo>)
    ensures |SetterBlocks(infos)| == 13 * |infos|
    ensures forall k :: 0 <= k < |infos| ==> SetterBlocks(infos)[13 * k .. 13 * k + 13] == SetterBlock(k, infos[k])
    decreases |infos|
  {
    if |infos| > 0 {
      var n := |infos| - 1;
      var init, last := SetterBlocks(infos[..n]), SetterBlock(n, infos[n]);
      SetterLayout(infos[..n]);
      assert |last| == 13;
      forall k | 0 <= k < |infos|
        ensures SetterBlocks(infos)[13 * k .. 13 * k + 13] == SetterBlock(k, infos[k])
      {
        if k < n {
          SliceOfLeft(init, last, 13 * k, 13 * k + 13);
          assert infos[..n][k] == infos[k];
        } else {
          SliceOfRight(init, last);
        }
      }
    }
  }

  /** In block k the null test jumps forward to MarkLabel(k), skipping
      exactly the unbox and the setter call. */
  lemma SetterBranchSkipsCall(infos: seq<PropertyInfo>, k: nat)
    requires k < |infos|
    ensures |SetterBlocks(infos)| == 13 * |infos|
    ensures SetterBlocks(infos)[13 * k + 5] == Brtrue_S(k)
    ensures SetterBlocks(infos)[13 * k + 11] == Callvirt(Setter(infos[k].name))
    ensures SetterBlocks(infos)[13 * k + 12] == MarkLabel(k)
  {
    SetterLayout(infos);
    var blocks := SetterBlocks(infos);
    assert blocks[13 * k .. 13 * k + 13] == SetterBlock(k, infos[k]);
    assert blocks[13 * k + 5] == blocks[13 * k .. 13 * k + 13][5];
    assert blocks[13 * k + 11] == blocks[13 * k .. 13 * k + 13][11];
    assert blocks[13 * k + 12] == blocks[13 * k .. 13 * k + 13][12];
  }

  /** A getter block boxes exactly when the property type is a value type. */
  lemma GetterBoxing(i: nat, p: PropertyInfo)
    ensures |GetterBlock(i, p)| == if p.isValueType then 8 else 7
    ensures Box(p.propertyType) in GetterBlock(i, p) <==> p.isValueType
    ensures GetterBlock(i, p)[|GetterBlock(i, p)| - 1] == Stelem_Ref
  {
  }

  /** The number of value-type properties: the ones a getter boxes. */
  function ValueTypeCount(infos: seq<PropertyInfo>): nat
    decreases |infos|
  {
    if |infos| == 0 then 0
    else ValueTypeCount(infos[..|infos| - 1]) + (if infos[|infos| - 1].isValueType then 1 else 0)
  }

  /** The getter's body is seven instructions per property plus one box per
      value type. */
  lemma {:induction false} GetterLayout(infos: seq<PropertyInfo>)
    ensures |GetterBlocks(infos)| == 7 * |infos| + ValueTypeCount(infos)
    decreases |infos|
  {
    if |infos| > 0 {
      GetterLayout(infos[..|infos| - 1]);
      GetterBoxing(|infos| - 1, infos[|infos| - 1]);
    }
  }

  /** The getter allocates one slot per property and returns the result array. */
  lemma GetterFrame(infos: seq<PropertyInfo>, classType: ClrType)
    ensures var code := GetterPrologue(classType, |infos|) + GetterBlocks(infos) + [Ldloc(1), Ret];
      code[3] == Ldc(|infos|) && code[4] == Newarr(ObjectType) && code[5] == Stloc(1)
      && code[|code| - 2] == Ldloc(1) && code[|code| - 1] == Ret
  {
    var prologue, body := GetterPrologue(classType, |infos|), GetterBlocks(infos);
    var code := prologue + body + [Ldloc(1), Ret];
    assert code[3] == prologue[3] && code[4] == prologue[4] && code[5] == prologue[5];
  }
}
