/**
 * The matcher builder that Litho's annotation processor generates for a test
 * component (MatcherGenerator.java). JavaPoet's specs are replaced by plain
 * records: a generated field is its type, name and annotations; a generated
 * method is its name, parameters, varargs flag, return type and a short list
 * of statements. The body of the generated `matches` is a list of statements
 * too, and `Run` gives it a meaning.
 */
module MatcherGenerator {
  import opened Wrappers

  // ---------------------------------------------------------------------
  // Java types and annotations, as JavaPoet describes them
  // ---------------------------------------------------------------------

  datatype Primitive = Boolean | Byte | Short | Int | Long | Char | Float | Double

  datatype TypeName =
    | Prim(kind: Primitive)
    | Class(name: string)
    | Parameterized(raw: string, args: seq<TypeName>)
    | WildcardSubtypeOf(upper: TypeName)
    | ArrayOf(element: TypeName)

  datatype DimensionUnit = Dp | Sp

  datatype Annotation =
    | Marker(cls: string)                // an annotation without members, e.g. @Px
    | Dimension(unit: DimensionUnit)     // @Dimension(unit = Dimension.DP) or SP

  /** The simple name of the generated builder class; also its return type. */
  const BUILDER := "Matcher"

  // Class names the generator refers to. The rules below only rely on
  // these being distinct from one another.
  const COMPONENT := "com.facebook.litho.Component"
  const COMPONENT_BUILDER := "com.facebook.litho.Component.Builder"
  const COMPONENT_LIFECYCLE := "com.facebook.litho.ComponentLifecycle"
  const REFERENCE := "com.facebook.litho.reference.Reference"
  const REFERENCE_BUILDER := "com.facebook.litho.reference.Reference.Builder"
  const HAMCREST_MATCHER := "org.hamcrest.Matcher"
  const OBJECT := "java.lang.Object"
  const NULLABLE := "javax.annotation.Nullable"
  const STRING_RES := "android.support.annotation.StringRes"
  const ARRAY_RES := "android.support.annotation.ArrayRes"
  const INT_RES := "android.support.annotation.IntegerRes"
  const BOOL_RES := "android.support.annotation.BoolRes"
  const COLOR_RES := "android.support.annotation.ColorRes"
  const COLOR_INT := "android.support.annotation.ColorInt"
  const DIMEN_RES := "android.support.annotation.DimenRes"
  const DRAWABLE_RES := "android.support.annotation.DrawableRes"
  const ATTR_RES := "android.support.annotation.AttrRes"
  const PX := "android.support.annotation.Px"

  // ---------------------------------------------------------------------
  // The input: a prop of the component's spec
  // ---------------------------------------------------------------------

  datatype ResType =
    | StringRes | StringArrayRes | IntRes | IntArrayRes | BoolRes | ColorRes
    | DimenSizeRes | DimenTextRes | DimenOffsetRes | FloatRes | DrawableRes
    | NoRes | DrawableReferenceRes

  /** A prop; it has varargs exactly when it names a single-element setter. */
  datatype PropModel = PropModel(
    name: string,
    typ: TypeName,
    resType: ResType,
    varArgsSingleName: string,
    externalAnnotations: seq<Annotation>)
  {
    predicate HasVarArgs() { varArgsSingleName != "" }
  }

  // ---------------------------------------------------------------------
  // The output: generated fields and methods
  // ---------------------------------------------------------------------

  datatype Param = Param(typ: TypeName, name: string, annotations: seq<Annotation>)

  /** The value a builder method hands to the `is` matcher. */
  datatype Expr =
    | Ident(id: string)                  // a parameter, used as is
    | Call(fn: string, args: seq<string>) // a resolver or converter of the ResourceResolver base class
    | Build(builder: string)             // <builder>.build()

  datatype Stmt =
    | IfNullReturnThis(variable: string)              // if (<variable> == null) { return this; }
    | SetMatcher(field: string, cast: TypeName, value: Expr)  // this.<field> = Is.is((<cast>) <value>);
    | AssignParam(field: string, param: string)       // <field> = <param>;
    | CallSelf(callee: string, arg: Expr)             // <callee>(<arg>);
    | ReturnThis                                      // return this;

  datatype GenMethod = GenMethod(
    name: string,
    params: seq<Param>,
    isVarargs: bool,
    returnType: TypeName,
    body: seq<Stmt>)

  datatype GenField = GenField(typ: TypeName, name: string, annotations: seq<Annotation>)

  datatype TypeSpecData = TypeSpecData(fields: seq<GenField>, methods: seq<GenMethod>)

  /** The exceptions the generator can raise on a malformed prop. */
  datatype GenError =
    | EmptyPropName      // codePointAt(0) on an empty name
    | NotParameterized   // a varargs prop whose type is not a ParameterizedTypeName
    | NoTypeArgument     // a varargs prop whose type has no type argument

  datatype Result<+T> = Ok(value: T) | Err(error: GenError)

  // ---------------------------------------------------------------------
  // Names and types
  // ---------------------------------------------------------------------

  /** Character.toUpperCase, on the ASCII letters. */
  function ToUpperCase(c: char): char {
    if 'a' <= c <= 'z' then (c as int - 32) as char else c
  }

  /** getPropMatcherName: "m", the name with its first character upper-cased, "Matcher". */
  function PropMatcherName(name: string): (r: Result<string>)
    ensures r.Ok? <==> name != ""
    ensures r.Err? ==> r.error == EmptyPropName
    ensures r.Ok? ==>
      && |r.value| == |name| + 8
      && r.value[0] == 'm'
      && r.value[1] == ToUpperCase(name[0])
      && r.value[2..|name| + 1] == name[1..]
      && r.value[|name| + 1..] == "Matcher"
  {
    if name == "" then Err(EmptyPropName)
    else Ok("m" + [ToUpperCase(name[0])] + name[1..] + "Matcher")
  }

  function MatcherFieldName(prop: PropModel): string
    requires prop.name != ""
  {
    PropMatcherName(prop.name).value
  }

  /** getRawType: a parameterized type loses its type arguments. */
  function RawType(t: TypeName): (r: TypeName)
    ensures !r.Parameterized?
  {
    if t.Parameterized? then Class(t.raw) else t
  }

  /** TypeName.box: a primitive becomes its wrapper class. */
  function Box(t: TypeName): (r: TypeName)
    ensures !r.Prim?
  {
    match t
    case Prim(k) =>
      Class(match k
        case Boolean => "java.lang.Boolean"
        case Byte => "java.lang.Byte"
        case Short => "java.lang.Short"
        case Int => "java.lang.Integer"
        case Long => "java.lang.Long"
        case Char => "java.lang.Character"
        case Float => "java.lang.Float"
        case Double => "java.lang.Double")
    case _ => t
  }

  /** getPropMatcherType: Matcher<raw type of the prop, boxed>. */
  function PropMatcherType(prop: PropModel): TypeName {
    Parameterized(HAMCREST_MATCHER, [Box(RawType(prop.typ))])
  }

  /** getBuilderGenericTypes: the type arguments of a builder parameter. */
  function BuilderGenericTypes(t: TypeName, builderClass: string): (r: seq<TypeName>)
    ensures |r| == (if builderClass == COMPONENT_BUILDER then 2 else 1)
    ensures t.Parameterized? && t.args != [] ==> r[0] == t.args[0]
    ensures !(t.Parameterized? && t.args != []) ==> r[0] == WildcardSubtypeOf(Class(COMPONENT_LIFECYCLE))
    ensures |r| == 2 ==> r[1] == WildcardSubtypeOf(Class(OBJECT))
  {
    var typeParameter :=
      if t.Parameterized? && t.args != [] then t.args[0]
      else WildcardSubtypeOf(Class(COMPONENT_LIFECYCLE));
    if builderClass == COMPONENT_BUILDER then [typeParameter, WildcardSubtypeOf(Class(OBJECT))]
    else [typeParameter]
  }

  // ---------------------------------------------------------------------
  // Builder methods
  // ---------------------------------------------------------------------

  /** parameter: the prop's external annotations come first, then the extra ones. */
  function Parameter(prop: PropModel, typ: TypeName, name: string, extra: seq<Annotation>): Param {
    Param(typ, name, prop.externalAnnotations + extra)
  }

  /** The three-argument getMethodSpecBuilder: public, returns the builder, ends with `return this`. */
  function NewMethod(name: string, params: seq<Param>, code: seq<Stmt>): GenMethod {
    GenMethod(name, params, false, Class(BUILDER), code + [ReturnThis])
  }

  /**
   * The arguments of `builder(prop, name, parameters, statement, ...)`: the
   * method's name and parameters and the value its statement computes.
   */
  datatype MethodPlan = MethodPlan(name: string, params: seq<Param>, value: Expr, isVarargs: bool)

  /**
   * The five-argument getMethodSpecBuilder: a varargs prop only gets a null
   * check on the prop's name; any other prop sets its matcher field to `is`
   * of the value cast to the prop's raw type.
   */
  function PropMethod(prop: PropModel, plan: MethodPlan): GenMethod
    requires prop.name != ""
  {
    var code :=
      if prop.HasVarArgs() then [IfNullReturnThis(prop.name)]
      else [SetMatcher(MatcherFieldName(prop), RawType(prop.typ), plan.value)];
    NewMethod(plan.name, plan.params, code).(isVarargs := plan.isVarargs)
  }

  function PropMethods(prop: PropModel, plans: seq<MethodPlan>): (r: seq<GenMethod>)
    requires prop.name != ""
    ensures |r| == |plans|
    ensures forall i :: 0 <= i < |plans| ==> r[i] == PropMethod(prop, plans[i])
  {
    seq(|plans|, i requires 0 <= i < |plans| => PropMethod(prop, plans[i]))
  }

  function MatcherField(prop: PropModel): GenField
    requires prop.name != ""
  {
    GenField(PropMatcherType(prop), MatcherFieldName(prop), [Marker(NULLABLE)])
  }

  function MatcherFieldSetter(prop: PropModel): GenMethod
    requires prop.name != ""
  {
    NewMethod(
      prop.name,
      [Param(PropMatcherType(prop), "matcher", [])],
      [AssignParam(MatcherFieldName(prop), "matcher")])
  }

  function VarArgBuilder(prop: PropModel, elementType: TypeName): GenMethod {
    var single := prop.varArgsSingleName;
    NewMethod(single, [Parameter(prop, elementType, single, [])], [IfNullReturnThis(single)])
  }

  function VarArgBuilderBuilder(prop: PropModel, elementType: TypeName): GenMethod {
    var single := prop.varArgsSingleName;
    var builderType :=
      Parameterized(COMPONENT_BUILDER, BuilderGenericTypes(elementType, COMPONENT_BUILDER));
    NewMethod(
      single,
      [Parameter(prop, builderType, single + "Builder", [])],
      [CallSelf(single, Build(single + "Builder"))])
  }

  function Regular(prop: PropModel, extra: seq<Annotation>): MethodPlan {
    MethodPlan(prop.name, [Parameter(prop, prop.typ, prop.name, extra)], Ident(prop.name), false)
  }

  function Res(prop: PropModel, annotationClass: string, resolver: string): MethodPlan {
    MethodPlan(
      prop.name + "Res",
      [Parameter(prop, Prim(Int), "resId", [Marker(annotationClass)])],
      Call(resolver + "Res", ["resId"]),
      false)
  }

  /** resWithVarargsBuilder: a Res overload with trailing format arguments, marked varargs. */
  function ResWithVarargs(
    prop: PropModel, annotationClass: string, resolver: string,
    varargsType: TypeName, varargsName: string): MethodPlan
  {
    MethodPlan(
      prop.name + "Res",
      [Parameter(prop, Prim(Int), "resId", [Marker(annotationClass)]),
       Param(ArrayOf(varargsType), varargsName, [])],
      Call(resolver + "Res", ["resId", varargsName]),
      true)
  }

  /** attrBuilders: (attrResId, defResId), then (attrResId) with 0 as the default. */
  function Attrs(prop: PropModel, annotationClass: string, resolver: string): seq<MethodPlan> {
    [ MethodPlan(
        prop.name + "Attr",
        [Parameter(prop, Prim(Int), "attrResId", [Marker(ATTR_RES)]),
         Parameter(prop, Prim(Int), "defResId", [Marker(annotationClass)])],
        Call(resolver + "Attr", ["attrResId", "defResId"]),
        false),
      MethodPlan(
        prop.name + "Attr",
        [Parameter(prop, Prim(Int), "attrResId", [Marker(ATTR_RES)])],
        Call(resolver + "Attr", ["attrResId", "0"]),
        false) ]
  }

  function Px(prop: PropModel): MethodPlan {
    MethodPlan(prop.name + "Px", [Parameter(prop, prop.typ, prop.name, [Marker(PX)])], Ident(prop.name), false)
  }

  function Dip(prop: PropModel): MethodPlan {
    MethodPlan(
      prop.name + "Dip", [Parameter(prop, Prim(Float), "dips", [Dimension(Dp)])],
      Call("dipsToPixels", ["dips"]), false)
  }

  function Sip(prop: PropModel): MethodPlan {
    MethodPlan(
      prop.name + "Sp", [Parameter(prop, Prim(Float), "sips", [Dimension(Sp)])],
      Call("sipsToPixels", ["sips"]), false)
  }

  /** builderBuilder: takes a Component or Reference builder and matches what it builds. */
  function BuilderOf(prop: PropModel, builderClass: string): MethodPlan {
    var builderType := Parameterized(builderClass, BuilderGenericTypes(prop.typ, builderClass));
    MethodPlan(
      prop.name, [Parameter(prop, builderType, prop.name + "Builder", [])],
      Build(prop.name + "Builder"), false)
  }

  /** The switch on the prop's resource type in generatePropsBuilderMethods. */
  function ResTypePlans(prop: PropModel): seq<MethodPlan> {
    match prop.resType
    case StringRes =>
      [ Regular(prop, []),
        Res(prop, STRING_RES, "resolveString"),
        ResWithVarargs(prop, STRING_RES, "resolveString", Class(OBJECT), "formatArgs") ]
      + Attrs(prop, STRING_RES, "resolveString")
    case StringArrayRes =>
      [Regular(prop, []), Res(prop, ARRAY_RES, "resolveStringArray")]
      + Attrs(prop, ARRAY_RES, "resolveStringArray")
    case IntRes =>
      [Regular(prop, []), Res(prop, INT_RES, "resolveInt")]
      + Attrs(prop, INT_RES, "resolveInt")
    case IntArrayRes =>
      [Regular(prop, []), Res(prop, ARRAY_RES, "resolveIntArray")]
      + Attrs(prop, ARRAY_RES, "resolveIntArray")
    case BoolRes =>
      [Regular(prop, []), Res(prop, BOOL_RES, "resolveBool")]
      + Attrs(prop, BOOL_RES, "resolveBool")
    case ColorRes =>
      [Regular(prop, [Marker(COLOR_INT)]), Res(prop, COLOR_RES, "resolveColor")]
      + Attrs(prop, COLOR_RES, "resolveColor")
    case DimenSizeRes =>
      [Px(prop), Res(prop, DIMEN_RES, "resolveDimenSize")]
      + Attrs(prop, DIMEN_RES, "resolveDimenSize")
      + [Dip(prop)]
    case DimenTextRes =>
      [Px(prop), Res(prop, DIMEN_RES, "resolveDimenSize")]
      + Attrs(prop, DIMEN_RES, "resolveDimenSize")
      + [Dip(prop), Sip(prop)]
    case DimenOffsetRes =>
      [Px(prop), Res(prop, DIMEN_RES, "resolveDimenOffset")]
      + Attrs(prop, DIMEN_RES, "resolveDimenOffset")
      + [Dip(prop)]
    case FloatRes =>
      [Regular(prop, []), Res(prop, DIMEN_RES, "resolveFloat")]
      + Attrs(prop, DIMEN_RES, "resolveFloat")
    case DrawableRes =>
      [Regular(prop, []), Res(prop, DRAWABLE_RES, "resolveDrawable")]
      + Attrs(prop, DRAWABLE_RES, "resolveDrawable")
    case NoRes =>
      [Regular(prop, [])]
    case DrawableReferenceRes =>
      []
  }

  /** The builder overloads a Component or Reference prop gets after the switch. */
  function ComponentPlans(prop: PropModel): seq<MethodPlan> {
    (if RawType(prop.typ) == Class(COMPONENT) then [BuilderOf(prop, COMPONENT_BUILDER)] else [])
    + (if RawType(prop.typ) == Class(REFERENCE) then [BuilderOf(prop, REFERENCE_BUILDER)] else [])
  }

  /** The single-element methods of a varargs prop, or the exception its type raises. */
  function VarArgBuilders(prop: PropModel): Result<seq<GenMethod>> {
    if !prop.HasVarArgs() then Ok([])
    else if !prop.typ.Parameterized? then Err(NotParameterized)
    else if prop.typ.args == [] then Err(NoTypeArgument)
    else
      var element := prop.typ.args[0];
      Ok([VarArgBuilder(prop, element)]
         + (if RawType(element) == Class(COMPONENT) then [VarArgBuilderBuilder(prop, element)] else []))
  }

  /** generatePropsBuilderMethods: the field and the methods one prop contributes. */
  function PropsBuilderMethods(prop: PropModel): (r: Result<TypeSpecData>)
    ensures r.Ok? <==>
      prop.name != "" && (prop.HasVarArgs() ==> prop.typ.Parameterized? && prop.typ.args != [])
    ensures r.Err? && prop.name == "" ==> r.error == EmptyPropName
  {
    if prop.name == "" then Err(EmptyPropName)
    else
      match VarArgBuilders(prop)
      case Err(e) => Err(e)
      case Ok(varArgMethods) =>
        Ok(TypeSpecData(
          [MatcherField(prop)],
          [MatcherFieldSetter(prop)] + varArgMethods
          + PropMethods(prop, ResTypePlans(prop) + ComponentPlans(prop))))
  }

  /** The methods of each prop in turn, in declaration order: the reference order for the builder's methods. */
  function MethodsInOrder(props: seq<PropModel>): seq<GenMethod>
    requires forall i :: 0 <= i < |props| ==> PropsBuilderMethods(props[i]).Ok?
  {
    if props == [] then []
    else PropsBuilderMethods(props[0]).value.methods + MethodsInOrder(props[1..])
  }

  /** The loop of generateBuilder over the props, in declaration order. */
  function GenerateBuilderMembers(props: seq<PropModel>): (r: Result<TypeSpecData>)
    ensures r.Ok? <==> forall i :: 0 <= i < |props| ==> PropsBuilderMethods(props[i]).Ok?
    ensures r.Ok? ==>
      && |r.value.fields| == |props|
      && (forall i :: 0 <= i < |props| ==>
           props[i].name != "" && r.value.fields[i] == MatcherField(props[i]))
      && r.value.methods == MethodsInOrder(props)
  {
    if props == [] then Ok(TypeSpecData([], []))
    else
      match PropsBuilderMethods(props[0])
      case Err(e) => Err(e)
      case Ok(head) =>
        match GenerateBuilderMembers(props[1..])
        case Err(e) => Err(e)
        case Ok(tail) =>
          Ok(TypeSpecData(head.fields + tail.fields, head.methods + tail.methods))
  }

  // ---------------------------------------------------------------------
  // The generated `matches`
  // ---------------------------------------------------------------------

  datatype MatchStmt =
    | IfNotAssignableReturnFalse(componentType: string)  // if (!value.getComponentClass().isAssignableFrom(T.class)) return false;
    | CastImpl(implClass: string)                        // final T impl = (T) value.getComponent();
    | IfRejectedReturnFalse(matcher: string, field: string)  // if (m != null && !m.matches(impl.f)) return false;
    | ReturnTrue                                         // return true;

  function PropChecks(props: seq<PropModel>): (r: Result<seq<MatchStmt>>)
    ensures r.Ok? <==> forall i :: 0 <= i < |props| ==> props[i].name != ""
    ensures r.Ok? ==> |r.value| == |props|
  {
    if props == [] then Ok([])
    else if props[0].name == "" then Err(EmptyPropName)
    else
      match PropChecks(props[1..])
      case Err(e) => Err(e)
      case Ok(rest) =>
        Ok([IfRejectedReturnFalse(MatcherFieldName(props[0]), props[0].name)] + rest)
  }

  /** generateMatchMethodBody: class check, cast, one check per prop, `return true`. */
  function MatchMethodBody(componentType: string, props: seq<PropModel>): (r: Result<seq<MatchStmt>>)
    ensures r.Ok? <==> forall i :: 0 <= i < |props| ==> props[i].name != ""
    ensures r.Ok? ==>
      && |r.value| == |props| + 3
      && r.value[0] == IfNotAssignableReturnFalse(componentType)
      && r.value[1] == CastImpl(componentType)
      && r.value[2..|props| + 2] == PropChecks(props).value
      && r.value[|r.value| - 1] == ReturnTrue
  {
    match PropChecks(props)
    case Err(e) => Err(e)
    case Ok(checks) =>
      Ok([IfNotAssignableReturnFalse(componentType), CastImpl(componentType)] + checks + [ReturnTrue])
  }

  /**
   * What the generated `matches(value)` sees: whether the inspected
   * component's class passes the isAssignableFrom test, the fields of the
   * cast implementation by name, and the builder's matcher fields by name
   * (None for a null field).
   */
  datatype Inspected<!V> = Inspected(
    classAssignable: bool,
    implField: string -> V,
    matcherField: string -> Option<V -> bool>)

  /** Executes a `matches` body; None when it falls off the end without returning. */
  function Run<V>(body: seq<MatchStmt>, env: Inspected<V>): Option<bool>
    decreases |body|
  {
    if body == [] then None
    else
      match body[0]
      case IfNotAssignableReturnFalse(_) =>
        if !env.classAssignable then Some(false) else Run(body[1..], env)
      case CastImpl(_) =>
        Run(body[1..], env)
      case IfRejectedReturnFalse(m, f) =>
        if env.matcherField(m).Some? && !env.matcherField(m).value(env.implField(f)) then Some(false)
        else Run(body[1..], env)
      case ReturnTrue =>
        Some(true)
  }

  /** A prop constrains the match only when its matcher field is set. */
  predicate PropAccepted<V>(prop: PropModel, env: Inspected<V>)
    requires prop.name != ""
  {
    var m := env.matcherField(MatcherFieldName(prop));
    m.None? || m.value(env.implField(prop.name))
  }

  predicate AllPropsAccepted<V>(props: seq<PropModel>, env: Inspected<V>)
    requires forall i :: 0 <= i < |props| ==> props[i].name != ""
  {
    forall i :: 0 <= i < |props| ==> PropAccepted(props[i], env)
  }

  // ---------------------------------------------------------------------
  // Properties
  // ---------------------------------------------------------------------

  /** Two props share a matcher field exactly when they agree after upper-casing the first character. */
  lemma MatcherFieldNameCollision(a: string, b: string)
    requires a != "" && b != ""
    ensures PropMatcherName(a) == PropMatcherName(b) <==>
              ToUpperCase(a[0]) == ToUpperCase(b[0]) && a[1..] == b[1..]
  {
    var ma, mb := PropMatcherName(a).value, PropMatcherName(b).value;
    if ma == mb {
      assert |a| == |b|;
      assert ma[1] == mb[1];
      assert a[1..] == ma[2..|a| + 1] == mb[2..|b| + 1] == b[1..];
    }
  }

  /** getRawType strips the type arguments and is idempotent. */
  lemma RawTypeIdempotent(t: TypeName)
    ensures RawType(RawType(t)) == RawType(t)
    ensures t.Parameterized? ==> RawType(t) == Class(t.raw)
    ensures !t.Parameterized? ==> RawType(t) == t
  {
  }

  /** Every prop gets one nullable matcher field and a setter, named after the prop, that stores a Matcher. */
  lemma FieldAndSetterPerProp(prop: PropModel)
    requires PropsBuilderMethods(prop).Ok?
    ensures var d := PropsBuilderMethods(prop).value;
      && |d.fields| == 1
      && d.fields[0].name == PropMatcherName(prop.name).value
      && d.fields[0].typ == Parameterized(HAMCREST_MATCHER, [Box(RawType(prop.typ))])
      && Marker(NULLABLE) in d.fields[0].annotations
      && |d.methods| >= 1
      && d.methods[0].name == prop.name
      && d.methods[0].params == [Param(d.fields[0].typ, "matcher", [])]
      && d.methods[0].body == [AssignParam(d.fields[0].name, "matcher"), ReturnThis]
  {
  }

  /** The name, arity and varargs flag of a generated method. */
  datatype Signature = Signature(name: string, arity: nat, isVarargs: bool)

  function SignatureOf(m: GenMethod): Signature {
    Signature(m.name, |m.params|, m.isVarargs)
  }

  function Signatures(ms: seq<GenMethod>): (r: seq<Signature>)
    ensures |r| == |ms|
    ensures forall i :: 0 <= i < |ms| ==> r[i] == SignatureOf(ms[i])
  {
    seq(|ms|, i requires 0 <= i < |ms| => SignatureOf(ms[i]))
  }

  /** The builder methods each resource type promises, independent of how they are built. */
  function ResTypeTable(name: string, r: ResType): seq<Signature> {
    var regular := Signature(name, 1, false);
    var res := Signature(name + "Res", 1, false);
    var attrs := [Signature(name + "Attr", 2, false), Signature(name + "Attr", 1, false)];
    var px := Signature(name + "Px", 1, false);
    var dip := Signature(name + "Dip", 1, false);
    match r
    case StringRes => [regular, res, Signature(name + "Res", 2, true)] + attrs
    case DimenSizeRes => [px, res] + attrs + [dip]
    case DimenOffsetRes => [px, res] + attrs + [dip]
    case DimenTextRes => [px, res] + attrs + [dip, Signature(name + "Sp", 1, false)]
    case NoRes => [regular]
    case DrawableReferenceRes => []
    case _ => [regular, res] + attrs
  }

  function PlanSignatures(plans: seq<MethodPlan>): (r: seq<Signature>)
    ensures |r| == |plans|
    ensures forall i :: 0 <= i < |plans| ==>
      r[i] == Signature(plans[i].name, |plans[i].params|, plans[i].isVarargs)
  {
    seq(|plans|, i requires 0 <= i < |plans| =>
      Signature(plans[i].name, |plans[i].params|, plans[i].isVarargs))
  }

  /** Building a method from a plan keeps the plan's name, arity and varargs flag. */
  lemma PlanSignaturesKept(prop: PropModel, plans: seq<MethodPlan>)
    requires prop.name != ""
    ensures Signatures(PropMethods(prop, plans)) == PlanSignatures(plans)
  {
  }

  /** The switch's plans agree with the reference table. */
  lemma PlanTable(prop: PropModel)
    ensures PlanSignatures(ResTypePlans(prop)) == ResTypeTable(prop.name, prop.resType)
  {
    match prop.resType
    case StringRes =>
    case StringArrayRes =>
    case IntRes =>
    case IntArrayRes =>
    case BoolRes =>
    case ColorRes =>
    case DimenSizeRes =>
    case DimenTextRes =>
    case DimenOffsetRes =>
    case FloatRes =>
    case DrawableRes =>
    case NoRes =>
    case DrawableReferenceRes =>
  }

  /** The switch's methods follow the field setter and the varargs methods and precede the builder overloads. */
  lemma ResTypeMethodsPlaced(prop: PropModel)
    requires PropsBuilderMethods(prop).Ok?
    ensures var ms := PropsBuilderMethods(prop).value.methods;
      var k := 1 + |VarArgBuilders(prop).value|;
      var n := |ResTypePlans(prop)|;
      && k + n + |ComponentPlans(prop)| == |ms|
      && ms[k..k + n] == PropMethods(prop, ResTypePlans(prop))
  {
    var ms := PropsBuilderMethods(prop).value.methods;
    var front := [MatcherFieldSetter(prop)] + VarArgBuilders(prop).value;
    var rs := PropMethods(prop, ResTypePlans(prop));
    var cs := PropMethods(prop, ComponentPlans(prop));
    assert PropMethods(prop, ResTypePlans(prop) + ComponentPlans(prop)) == rs + cs;
    assert ms == front + rs + cs;
  }

  /**
   * In the methods a prop contributes, the run after the field setter and
   * the varargs methods matches the reference table of its resource type,
   * and only the builder overloads come after it.
   */
  lemma ResTypeMethodTable(prop: PropModel)
    requires PropsBuilderMethods(prop).Ok?
    ensures var ms := PropsBuilderMethods(prop).value.methods;
      var k := 1 + |VarArgBuilders(prop).value|;
      var n := |ResTypeTable(prop.name, prop.resType)|;
      && k + n + |ComponentPlans(prop)| == |ms|
      && Signatures(ms[k..k + n]) == ResTypeTable(prop.name, prop.resType)
  {
    ResTypeMethodsPlaced(prop);
    PlanSignaturesKept(prop, ResTypePlans(prop));
    PlanTable(prop);
  }

  /** In the reference table, only a non-dimension type has an entry named after the prop. */
  lemma RegularInTable(name: string, r: ResType)
    ensures var table := ResTypeTable(name, r);
      (exists i :: 0 <= i < |table| && table[i].name == name)
        <==> r !in {DimenSizeRes, DimenTextRes, DimenOffsetRes, DrawableReferenceRes}
  {
    var table := ResTypeTable(name, r);
    if r in {DimenSizeRes, DimenTextRes, DimenOffsetRes, DrawableReferenceRes} {
      forall i | 0 <= i < |table| ensures table[i].name != name {
        assert |table[i].name| > |name|;
      }
    } else {
      assert table[0].name == name;
    }
  }

  /** A dimension prop has no setter taking the value itself: only Px, Dip (and Sp) take one. */
  lemma RegularSetterIff(prop: PropModel)
    requires PropsBuilderMethods(prop).Ok?
    ensures var ms := PropsBuilderMethods(prop).value.methods;
      var k := 1 + |VarArgBuilders(prop).value|;
      var n := |ResTypeTable(prop.name, prop.resType)|;
      k + n <= |ms|
      && ((exists i :: k <= i < k + n && ms[i].name == prop.name)
          <==> prop.resType !in {DimenSizeRes, DimenTextRes, DimenOffsetRes, DrawableReferenceRes})
  {
    var ms := PropsBuilderMethods(prop).value.methods;
    var k := 1 + |VarArgBuilders(prop).value|;
    var table := ResTypeTable(prop.name, prop.resType);
    var n := |table|;
    ResTypeMethodTable(prop);
    RegularInTable(prop.name, prop.resType);
    var sigs := Signatures(ms[k..k + n]);
    assert sigs == table;
    forall i | k <= i < k + n ensures ms[i].name == table[i - k].name {
      assert sigs[i - k] == SignatureOf(ms[i]);
    }
    if exists j :: 0 <= j < n && table[j].name == prop.name {
      var j :| 0 <= j < n && table[j].name == prop.name;
      assert ms[k + j].name == prop.name;
    }
  }

  /** The resolver method the Res and Attr overloads of each resource type call. */
  function ResolverOf(r: ResType): string {
    match r
    case StringRes => "resolveString"
    case StringArrayRes => "resolveStringArray"
    case IntRes => "resolveInt"
    case IntArrayRes => "resolveIntArray"
    case BoolRes => "resolveBool"
    case ColorRes => "resolveColor"
    case DimenSizeRes => "resolveDimenSize"
    case DimenTextRes => "resolveDimenSize"
    case DimenOffsetRes => "resolveDimenOffset"
    case FloatRes => "resolveFloat"
    case DrawableRes => "resolveDrawable"
    case NoRes => ""
    case DrawableReferenceRes => ""
  }

  /** The annotation on the resource id the Res and Attr overloads of each resource type take. */
  function ResAnnotationOf(r: ResType): string {
    match r
    case StringRes => STRING_RES
    case StringArrayRes => ARRAY_RES
    case IntRes => INT_RES
    case IntArrayRes => ARRAY_RES
    case BoolRes => BOOL_RES
    case ColorRes => COLOR_RES
    case DimenSizeRes => DIMEN_RES
    case DimenTextRes => DIMEN_RES
    case DimenOffsetRes => DIMEN_RES
    case FloatRes => DIMEN_RES
    case DrawableRes => DRAWABLE_RES
    case NoRes => ""
    case DrawableReferenceRes => ""
  }

  /**
   * The parameters of each overload in ResTypeTable, in the same order, and
   * the value its matcher field is set to.
   */
  function ResTypeDetails(prop: PropModel): seq<(seq<Param>, Expr)> {
    var name := prop.name;
    var ext := prop.externalAnnotations;
    var r := prop.resType;
    var resolver := ResolverOf(r);
    var resId := Param(Prim(Int), "resId", ext + [Marker(ResAnnotationOf(r))]);
    var attrResId := Param(Prim(Int), "attrResId", ext + [Marker(ATTR_RES)]);
    var regular :=
      ([Param(prop.typ, name, ext + (if r == ColorRes then [Marker(COLOR_INT)] else []))], Ident(name));
    var res := ([resId], Call(resolver + "Res", ["resId"]));
    var attrs :=
      [ ([attrResId, Param(Prim(Int), "defResId", ext + [Marker(ResAnnotationOf(r))])],
         Call(resolver + "Attr", ["attrResId", "defResId"])),
        ([attrResId], Call(resolver + "Attr", ["attrResId", "0"])) ];
    var px := ([Param(prop.typ, name, ext + [Marker(PX)])], Ident(name));
    var dip := ([Param(Prim(Float), "dips", ext + [Dimension(Dp)])], Call("dipsToPixels", ["dips"]));
    var sp := ([Param(Prim(Float), "sips", ext + [Dimension(Sp)])], Call("sipsToPixels", ["sips"]));
    match r
    case StringRes =>
      [ regular, res,
        ([resId, Param(ArrayOf(Class(OBJECT)), "formatArgs", [])], Call(resolver + "Res", ["resId", "formatArgs"])) ]
      + attrs
    case DimenSizeRes => [px, res] + attrs + [dip]
    case DimenOffsetRes => [px, res] + attrs + [dip]
    case DimenTextRes => [px, res] + attrs + [dip, sp]
    case NoRes => [regular]
    case DrawableReferenceRes => []
    case _ => [regular, res] + attrs
  }

  function PlanDetails(plans: seq<MethodPlan>): (r: seq<(seq<Param>, Expr)>)
    ensures |r| == |plans|
    ensures forall i :: 0 <= i < |plans| ==> r[i] == (plans[i].params, plans[i].value)
  {
    seq(|plans|, i requires 0 <= i < |plans| => (plans[i].params, plans[i].value))
  }

  /** The switch's plans take the parameters and compute the values of the reference table. */
  lemma PlanDetailsTable(prop: PropModel)
    ensures PlanDetails(ResTypePlans(prop)) == ResTypeDetails(prop)
  {
  }


  /**
   * Each resource-type overload a prop gets takes the parameters of the
   * reference table and, unless the prop is varargs, sets the prop's matcher
   * field to `is` of the table's value.
   */
  lemma ResTypeMethodDetails(prop: PropModel)
    requires PropsBuilderMethods(prop).Ok?
    ensures var ms := PropsBuilderMethods(prop).value.methods;
      var k := 1 + |VarArgBuilders(prop).value|;
      var details := ResTypeDetails(prop);
      && k + |details| <= |ms|
      && forall i :: 0 <= i < |details| ==>
           && ms[k + i].params == details[i].0
           && (!prop.HasVarArgs() ==>
                 ms[k + i].body == [SetMatcher(MatcherFieldName(prop), RawType(prop.typ), details[i].1), ReturnThis])
  {
    var ms := PropsBuilderMethods(prop).value.methods;
    var k := 1 + |VarArgBuilders(prop).value|;
    var plans := ResTypePlans(prop);
    var details := ResTypeDetails(prop);
    ResTypeMethodsPlaced(prop);
    PlanDetailsTable(prop);
    assert details == PlanDetails(plans);
    var rs := ms[k..k + |plans|];
    assert rs == PropMethods(prop, plans);
    MethodsFollowPlans(prop, plans);
    forall i | 0 <= i < |details|
      ensures ms[k + i].params == details[i].0
      ensures !prop.HasVarArgs() ==>
        ms[k + i].body == [SetMatcher(MatcherFieldName(prop), RawType(prop.typ), details[i].1), ReturnThis]
    {
      assert ms[k + i] == rs[i];
    }
  }

  /** A method built from a plan takes the plan's parameters and, for a non-varargs prop, matches its value. */
  lemma MethodsFollowPlans(prop: PropModel, plans: seq<MethodPlan>)
    requires prop.name != ""
    ensures var ms := PropMethods(prop, plans);
      forall i :: 0 <= i < |plans| ==>
        && ms[i].params == PlanDetails(plans)[i].0
        && (!prop.HasVarArgs() ==>
              ms[i].body == [SetMatcher(MatcherFieldName(prop), RawType(prop.typ), PlanDetails(plans)[i].1), ReturnThis])
  {
  }


  /** The two Attr overloads differ only in the default resource: a parameter, or 0. */
  lemma AttrOverloads(prop: PropModel, annotationClass: string, resolver: string)
    requires prop.name != "" && !prop.HasVarArgs()
    ensures var ms := PropMethods(prop, Attrs(prop, annotationClass, resolver));
      && |ms| == 2
      && ms[0].name == ms[1].name == prop.name + "Attr"
      && |ms[0].params| == 2 && |ms[1].params| == 1
      && ms[0].params[0] == ms[1].params[0]
      && ms[0].params[0].name == "attrResId" && ms[0].params[1].name == "defResId"
      && ms[0].body == [SetMatcher(MatcherFieldName(prop), RawType(prop.typ), Call(resolver + "Attr", ["attrResId", "defResId"])), ReturnThis]
      && ms[1].body == [SetMatcher(MatcherFieldName(prop), RawType(prop.typ), Call(resolver + "Attr", ["attrResId", "0"])), ReturnThis]
  {
  }

  /** A method that changes no matcher field. */
  predicate LeavesMatchersAlone(m: GenMethod) {
    forall k :: 0 <= k < |m.body| ==> !m.body[k].SetMatcher? && !m.body[k].AssignParam?
  }

  /** Every generated method returns the builder and ends with `return this`. */
  predicate ReturnsThis(m: GenMethod) {
    m.returnType == Class(BUILDER) && m.body != [] && m.body[|m.body| - 1] == ReturnThis
  }

  /** For a prop without varargs, the method sets the prop's matcher field. */
  predicate SetsMatcherOf(m: GenMethod, prop: PropModel)
    requires prop.name != ""
  {
    |m.body| == 2 && m.body[0].SetMatcher? && m.body[0].field == MatcherFieldName(prop)
    && m.body[0].cast == RawType(prop.typ) && m.body[1] == ReturnThis
  }

  /** Bodies: matcher assignment for ordinary props, only a null check for varargs props. */
  lemma MethodBodies(prop: PropModel)
    requires PropsBuilderMethods(prop).Ok?
    ensures var ms := PropsBuilderMethods(prop).value.methods;
      && (forall i :: 0 <= i < |ms| ==> ReturnsThis(ms[i]))
      && (!prop.HasVarArgs() ==> forall i :: 1 <= i < |ms| ==> SetsMatcherOf(ms[i], prop))
      && (prop.HasVarArgs() ==> forall i :: 1 <= i < |ms| ==> LeavesMatchersAlone(ms[i]))
  {
    var ms := PropsBuilderMethods(prop).value.methods;
    var varArgMethods := VarArgBuilders(prop).value;
    var plans := ResTypePlans(prop) + ComponentPlans(prop);
    var rest := PropMethods(prop, plans);
    assert ms == [MatcherFieldSetter(prop)] + varArgMethods + rest;
    forall i | 0 <= i < |ms|
      ensures ReturnsThis(ms[i])
      ensures i >= 1 && !prop.HasVarArgs() ==> SetsMatcherOf(ms[i], prop)
      ensures i >= 1 && prop.HasVarArgs() ==> LeavesMatchersAlone(ms[i])
    {
      if i >= 1 + |varArgMethods| {
        assert ms[i] == rest[i - 1 - |varArgMethods|];
      }
    }
  }

  /**
   * A varargs prop gets a single-element method that only null-checks its
   * argument and, when the element type is a Component, a Builder overload
   * (typed by the element's own type argument) that passes the built element to it; every later method null-checks the
   * prop's name and returns.
   */
  lemma VarArgMethods(prop: PropModel)
    requires prop.HasVarArgs() && PropsBuilderMethods(prop).Ok?
    ensures var ms := PropsBuilderMethods(prop).value.methods;
      var single := prop.varArgsSingleName;
      var element := prop.typ.args[0];
      var k := if RawType(element) == Class(COMPONENT) then 2 else 1;
      && |ms| >= 1 + k
      && ms[1].name == single
      && ms[1].params == [Param(element, single, prop.externalAnnotations)]
      && ms[1].body == [IfNullReturnThis(single), ReturnThis]
      && (k == 2 ==>
            && ms[2].name == single
            && ms[2].params == [Param(Parameterized(COMPONENT_BUILDER, BuilderGenericTypes(element, COMPONENT_BUILDER)),
                                      single + "Builder", prop.externalAnnotations)]
            && ms[2].body == [CallSelf(single, Build(single + "Builder")), ReturnThis])
      && (forall i :: 1 + k <= i < |ms| ==> ms[i].body == [IfNullReturnThis(prop.name), ReturnThis])
  {
    var ms := PropsBuilderMethods(prop).value.methods;
    var varArgMethods := VarArgBuilders(prop).value;
    var rest := PropMethods(prop, ResTypePlans(prop) + ComponentPlans(prop));
    var element := prop.typ.args[0];
    assert ms == [MatcherFieldSetter(prop)] + varArgMethods + rest;
    assert prop.externalAnnotations + [] == prop.externalAnnotations;
    assert ms[1] == varArgMethods[0] == VarArgBuilder(prop, element);
    if RawType(element) == Class(COMPONENT) {
      assert ms[2] == varArgMethods[1] == VarArgBuilderBuilder(prop, element);
    }
    forall i | 1 + |varArgMethods| <= i < |ms|
      ensures ms[i].body == [IfNullReturnThis(prop.name), ReturnThis]
    {
      assert ms[i] == rest[i - 1 - |varArgMethods|];
    }
  }

  /**
   * The builder overloads come last: a Component prop gets one taking a
   * Component.Builder<T, ? extends Object>, a Reference prop one taking a
   * Reference.Builder<T>, where T is the prop type's first type argument or
   * `? extends ComponentLifecycle`; any other prop gets none.
   */
  lemma BuilderBuilderOverloads(prop: PropModel)
    requires PropsBuilderMethods(prop).Ok?
    ensures var ms := PropsBuilderMethods(prop).value.methods;
      var cs := PropMethods(prop, ComponentPlans(prop));
      var raw := RawType(prop.typ);
      var arg := if prop.typ.Parameterized? && prop.typ.args != [] then prop.typ.args[0]
                 else WildcardSubtypeOf(Class(COMPONENT_LIFECYCLE));
      var body := if prop.HasVarArgs() then [IfNullReturnThis(prop.name), ReturnThis]
                  else [SetMatcher(MatcherFieldName(prop), raw, Build(prop.name + "Builder")), ReturnThis];
      && |cs| <= |ms| && ms[|ms| - |cs|..] == cs
      && (raw == Class(COMPONENT) ==>
            cs == [GenMethod(prop.name,
                     [Param(Parameterized(COMPONENT_BUILDER, [arg, WildcardSubtypeOf(Class(OBJECT))]),
                            prop.name + "Builder", prop.externalAnnotations)],
                     false, Class(BUILDER), body)])
      && (raw == Class(REFERENCE) ==>
            cs == [GenMethod(prop.name,
                     [Param(Parameterized(REFERENCE_BUILDER, [arg]), prop.name + "Builder", prop.externalAnnotations)],
                     false, Class(BUILDER), body)])
      && (raw != Class(COMPONENT) && raw != Class(REFERENCE) ==> cs == [])
  {
    var ms := PropsBuilderMethods(prop).value.methods;
    var cs := PropMethods(prop, ComponentPlans(prop));
    var front := [MatcherFieldSetter(prop)] + VarArgBuilders(prop).value
                 + PropMethods(prop, ResTypePlans(prop));
    assert PropMethods(prop, ResTypePlans(prop) + ComponentPlans(prop))
        == PropMethods(prop, ResTypePlans(prop)) + cs;
    assert ms == front + cs;
    assert prop.externalAnnotations + [] == prop.externalAnnotations;
    var arg := if prop.typ.Parameterized? && prop.typ.args != [] then prop.typ.args[0]
               else WildcardSubtypeOf(Class(COMPONENT_LIFECYCLE));
    assert BuilderGenericTypes(prop.typ, COMPONENT_BUILDER) == [arg, WildcardSubtypeOf(Class(OBJECT))];
    assert BuilderGenericTypes(prop.typ, REFERENCE_BUILDER) == [arg];
    if RawType(prop.typ) == Class(COMPONENT) {
      assert ComponentPlans(prop) == [BuilderOf(prop, COMPONENT_BUILDER)];
      assert cs == [PropMethod(prop, BuilderOf(prop, COMPONENT_BUILDER))];
      var m := PropMethod(prop, BuilderOf(prop, COMPONENT_BUILDER));
      assert m.params == [Param(Parameterized(COMPONENT_BUILDER, [arg, WildcardSubtypeOf(Class(OBJECT))]),
                            prop.name + "Builder", prop.externalAnnotations)];
      assert prop.HasVarArgs() ==> m.body == [IfNullReturnThis(prop.name), ReturnThis];
      assert !prop.HasVarArgs() ==> m.body == [SetMatcher(MatcherFieldName(prop), RawType(prop.typ), Build(prop.name + "Builder")), ReturnThis];
    } else if RawType(prop.typ) == Class(REFERENCE) {
      assert ComponentPlans(prop) == [BuilderOf(prop, REFERENCE_BUILDER)];
      assert cs == [PropMethod(prop, BuilderOf(prop, REFERENCE_BUILDER))];
      var m := PropMethod(prop, BuilderOf(prop, REFERENCE_BUILDER));
      assert m.params == [Param(Parameterized(REFERENCE_BUILDER, [arg]), prop.name + "Builder", prop.externalAnnotations)];
      assert prop.HasVarArgs() ==> m.body == [IfNullReturnThis(prop.name), ReturnThis];
      assert !prop.HasVarArgs() ==> m.body == [SetMatcher(MatcherFieldName(prop), RawType(prop.typ), Build(prop.name + "Builder")), ReturnThis];
    }
  }

  /** Each prop's setter appears among the builder's methods. */
  lemma {:induction false} EveryPropHasItsSetter(props: seq<PropModel>)
    requires GenerateBuilderMembers(props).Ok?
    ensures forall i :: 0 <= i < |props| ==>
      props[i].name != "" && MatcherFieldSetter(props[i]) in GenerateBuilderMembers(props).value.methods
  {
    if props != [] {
      EveryPropHasItsSetter(props[1..]);
      var head := PropsBuilderMethods(props[0]).value.methods;
      var tail := GenerateBuilderMembers(props[1..]).value.methods;
      assert GenerateBuilderMembers(props).value.methods == head + tail;
      assert head[0] == MatcherFieldSetter(props[0]);
      forall i | 1 <= i < |props|
        ensures MatcherFieldSetter(props[i]) in head + tail
      {
        assert props[i] == props[1..][i - 1];
      }
    }
  }

  /** Run over the per-prop checks followed by `return true`. */
  lemma {:induction false} RunChecks<V>(props: seq<PropModel>, env: Inspected<V>)
    requires PropChecks(props).Ok?
    ensures forall i :: 0 <= i < |props| ==> props[i].name != ""
    ensures Run(PropChecks(props).value + [ReturnTrue], env) == Some(AllPropsAccepted(props, env))
  {
    if props != [] {
      var head := IfRejectedReturnFalse(MatcherFieldName(props[0]), props[0].name);
      var rest := PropChecks(props[1..]).value;
      RunChecks(props[1..], env);
      assert PropChecks(props).value + [ReturnTrue] == [head] + (rest + [ReturnTrue]);
      assert ([head] + (rest + [ReturnTrue]))[1..] == rest + [ReturnTrue];
      if PropAccepted(props[0], env) {
        assert AllPropsAccepted(props, env) == AllPropsAccepted(props[1..], env) by {
          forall i | 0 <= i < |props| ensures PropAccepted(props[i], env) == (i == 0 || PropAccepted(props[1..][i - 1], env)) {
          }
        }
      }
    }
  }

  /**
   * The generated `matches(value)` returns true exactly when the component
   * class passes the assignability check and every prop whose matcher field
   * is set accepts the implementation's field of that name.
   */
  lemma MatchesIff<V>(componentType: string, props: seq<PropModel>, env: Inspected<V>)
    requires MatchMethodBody(componentType, props).Ok?
    ensures forall i :: 0 <= i < |props| ==> props[i].name != ""
    ensures Run(MatchMethodBody(componentType, props).value, env)
         == Some(env.classAssignable && AllPropsAccepted(props, env))
  {
    var checks := PropChecks(props).value;
    var body := MatchMethodBody(componentType, props).value;
    RunChecks(props, env);
    assert body[1..][1..] == checks + [ReturnTrue];
  }

  /** With no matcher field set, only the class check decides. */
  lemma NullMatchersImposeNothing<V>(componentType: string, props: seq<PropModel>, env: Inspected<V>)
    requires MatchMethodBody(componentType, props).Ok?
    requires forall s :: env.matcherField(s) == None
    ensures Run(MatchMethodBody(componentType, props).value, env) == Some(env.classAssignable)
  {
    MatchesIff(componentType, props, env);
  }
}
