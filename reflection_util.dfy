/** The bean-accessor rules of the mapping engine: which methods are getters
    and setters, which property name an accessor stands for, which collector a
    collection instance gets, and the fixed tables of built-in types and of
    primitive default values. A reflected method is reduced to its name, its
    number of parameters and its return type. */
module ReflectionUtil {
  import opened Results

  const IS := "is"
  const GET := "get"
  const SET := "set"

  /** The primitive kinds of Java. Void stands for void.class (Void.TYPE). */
  datatype PrimitiveKind = Boolean | Char | Byte | Short | Int | Long | Float | Double | Void

  /** A Java class object, as far as the rules below tell classes apart.
      Each class has exactly one representation: OtherClass names only
      classes that are neither primitives, wrappers nor String. */
  datatype JavaType =
    | Primitive(kind: PrimitiveKind)  // boolean.class, ..., void.class
    | Boxed(kind: PrimitiveKind)      // Boolean.class, ..., java.lang.Void
    | StringClass
    | OtherClass(name: string)        // any class not listed above, never String or a wrapper

  /** A reflected method: its name, parameter count and return type. */
  datatype MethodSignature = MethodSignature(name: string, parameterCount: nat, returnType: JavaType)

  /** A value of a primitive type. The two floating-point zeros are kept as
      tags: no floating-point arithmetic is modelled. */
  datatype PrimitiveValue =
    | BooleanValue(b: bool)
    | CharValue(c: char)
    | IntegralValue(integralKind: PrimitiveKind, n: int)
    | FloatingZero(floatingKind: PrimitiveKind)

  /** The primitive kind a value belongs to. */
  function KindOf(v: PrimitiveValue): PrimitiveKind {
    match v
    case BooleanValue(_) => Boolean
    case CharValue(_) => Char
    case IntegralValue(k, _) => k
    case FloatingZero(k) => k
  }

  /** The zero of each primitive type, as section 4.12.5 of the Java Language
      Specification fixes the initial value of a field. */
  predicate IsZero(v: PrimitiveValue) {
    match v
    case BooleanValue(b) => !b
    case CharValue(c) => c == '\0'
    case IntegralValue(_, n) => n == 0
    case FloatingZero(_) => true
  }

  /** The table of default values, one per non-void primitive type. */
  const DefaultValues: map<JavaType, PrimitiveValue> := map[
    Primitive(Boolean) := BooleanValue(false),
    Primitive(Char) := CharValue('\0'),
    Primitive(Byte) := IntegralValue(Byte, 0),
    Primitive(Short) := IntegralValue(Short, 0),
    Primitive(Int) := IntegralValue(Int, 0),
    Primitive(Long) := IntegralValue(Long, 0),
    Primitive(Float) := FloatingZero(Float),
    Primitive(Double) := FloatingZero(Double)
  ]

  /** The built-in types: the eight wrapper classes and String. */
  const BuildInTypes: set<JavaType> := {
    Boxed(Boolean), Boxed(Char), Boxed(Byte), Boxed(Short),
    Boxed(Int), Boxed(Long), Boxed(Float), Boxed(Double), StringClass
  }

  /** True exactly for the wrappers of the eight non-void primitives and for
      String; neither the primitives themselves nor java.lang.Void qualify. */
  function IsBuildInType(t: JavaType): (b: bool)
    ensures b <==> (t.Boxed? && t.kind != Void) || t == StringClass
  {
    BuildInTypesMembers(t);
    t in BuildInTypes
  }

  lemma BuildInTypesMembers(t: JavaType)
    ensures t in BuildInTypes <==> (t.Boxed? && t.kind != Void) || t == StringClass
  {
  }

  /** The default value of a type: present exactly for the non-void
      primitives, where it is the zero of that very type; absent (null) for
      every other type, the wrappers included. */
  function DefaultValue(t: JavaType): (r: Option<PrimitiveValue>)
    ensures r.Some? <==> t.Primitive? && t.kind != Void
    ensures r.Some? ==> KindOf(r.value) == t.kind && IsZero(r.value)
    ensures t == Primitive(Boolean) ==> r == Some(BooleanValue(false))
    ensures t == Primitive(Char) ==> r == Some(CharValue('\0'))
    ensures t.Primitive? && t.kind in {Byte, Short, Int, Long} ==> r == Some(IntegralValue(t.kind, 0))
    ensures t.Primitive? && t.kind in {Float, Double} ==> r == Some(FloatingZero(t.kind))
  {
    DefaultValuesMembers(t);
    if t in DefaultValues then Some(DefaultValues[t]) else None
  }

  lemma DefaultValuesMembers(t: JavaType)
    ensures t in DefaultValues <==> t.Primitive? && t.kind != Void
    ensures t in DefaultValues ==> KindOf(DefaultValues[t]) == t.kind && IsZero(DefaultValues[t])
    ensures t == Primitive(Boolean) ==> t in DefaultValues && DefaultValues[t] == BooleanValue(false)
    ensures t == Primitive(Char) ==> t in DefaultValues && DefaultValues[t] == CharValue('\0')
    ensures t.Primitive? && t.kind in {Byte, Short, Int, Long} ==>
      t in DefaultValues && DefaultValues[t] == IntegralValue(t.kind, 0)
    ensures t.Primitive? && t.kind in {Float, Double} ==>
      t in DefaultValues && DefaultValues[t] == FloatingZero(t.kind)
  {
  }

  /** A collection instance, reduced to the interfaces its class implements. */
  datatype CollectionInstance = CollectionInstance(className: string, isSet: bool, isList: bool)

  /** The collector chosen for a collection: Collectors.toSet() or toList(). */
  datatype CollectorKind = ToSet | ToList

  /** MappingException.unsupportedCollection */
  datatype CollectionError = UnsupportedCollection(className: string)

  /** The collector that rebuilds a collection of the same kind. A Set is
      recognised before a List, so an instance that is both gets ToSet. */
  function GetCollector(c: CollectionInstance): (r: Result<CollectorKind, CollectionError>)
    ensures r == Success(ToSet) <==> c.isSet
    ensures r == Success(ToList) <==> c.isList && !c.isSet
    ensures r.Failure? <==> !c.isSet && !c.isList
    ensures r.Failure? ==> r.error == UnsupportedCollection(c.className)
  {
    if c.isSet then Success(ToSet)
    else if c.isList then Success(ToList)
    else Failure(UnsupportedCollection(c.className))
  }

  /** Every return type but void.class counts, java.lang.Void included. */
  function HasReturnType(m: MethodSignature): (b: bool)
    ensures !b <==> m.returnType == Primitive(Void)
    ensures m.returnType.Boxed? ==> b
  {
    m.returnType != Primitive(Void)
  }

  /** The primitive boolean and its wrapper, and nothing else. */
  function IsBool(t: JavaType): (b: bool)
    ensures b <==> (t.Primitive? || t.Boxed?) && t.kind == Boolean
  {
    t == Primitive(Boolean) || t == Boxed(Boolean)
  }

  /** Whether the return type is boolean or Boolean, whatever the name; such
      a method always has a return type. */
  function IsBoolGetter(m: MethodSignature): (b: bool)
    ensures b ==> HasReturnType(m)
    ensures b <==> (m.returnType.Primitive? || m.returnType.Boxed?) && m.returnType.kind == Boolean
  {
    IsBool(m.returnType)
  }

  /** hasArguments(method): at least one parameter. */
  function HasArguments(m: MethodSignature): (b: bool)
    ensures b <==> m.parameterCount >= 1
  {
    m.parameterCount != 0
  }

  /** hasArguments(method, count): exactly count parameters; a negative
      count matches no method. */
  function HasArgumentCount(m: MethodSignature, count: int): (b: bool)
    ensures b <==> m.parameterCount == count
    ensures count < 0 ==> !b
    ensures b ==> (HasArguments(m) <==> count != 0)
  {
    m.parameterCount == count
  }

  /** A setter: named set..., exactly one parameter, void return type. */
  function IsSetter(m: MethodSignature): (b: bool)
    ensures b <==> SET <= m.name && m.parameterCount == 1 && m.returnType == Primitive(Void)
    ensures b ==> |m.name| >= 3
  {
    var validName := SET <= m.name;
    validName && !HasReturnType(m) && HasArgumentCount(m, 1)
  }

  /** A getter: no parameters, a non-void return type, and named is... when
      it returns boolean or Boolean, get... otherwise. */
  function IsGetter(m: MethodSignature): (b: bool)
    ensures b <==>
      && m.parameterCount == 0
      && m.returnType != Primitive(Void)
      && (if m.returnType == Primitive(Boolean) || m.returnType == Boxed(Boolean)
          then IS <= m.name else GET <= m.name)
  {
    var validName := if IsBoolGetter(m) then IS <= m.name else GET <= m.name;
    validName && HasReturnType(m) && !HasArguments(m)
  }

  /** Getters and setters are disjoint; an accessor's name carries the is
      prefix (boolean getters) or the get/set prefix (all others). */
  function IsGetterOrSetter(m: MethodSignature): (b: bool)
    ensures b <==> IsGetter(m) || IsSetter(m)
    ensures !(IsGetter(m) && IsSetter(m))
    ensures b && IsBoolGetter(m) ==> IS <= m.name && |m.name| >= 2
    ensures b && !IsBoolGetter(m) ==> (GET <= m.name || SET <= m.name) && |m.name| >= 3
    ensures !b ==> !IsGetter(m) && !IsSetter(m)
  {
    IsGetter(m) || IsSetter(m)
  }

  /** A boolean- or Boolean-returning method named get... is no getter. */
  lemma BooleanGetIsNoGetter(m: MethodSignature)
    requires IsBool(m.returnType) && GET <= m.name
    ensures !IsGetter(m) && !IsSetter(m)
  {
    assert m.name[0] == 'g';
  }

  predicate IsAsciiUpper(c: char) {
    'A' <= c <= 'Z'
  }

  predicate IsAsciiLower(c: char) {
    'a' <= c <= 'z'
  }

  /** Character.toLowerCase restricted to ASCII letters. */
  function LowerChar(c: char): (r: char)
    ensures !IsAsciiUpper(r)
    ensures !IsAsciiUpper(c) ==> r == c
    ensures IsAsciiUpper(c) ==> IsAsciiLower(r) && r as int == c as int + 32
  {
    if IsAsciiUpper(c) then (c as int + 32) as char else c
  }

  /** The exceptions toPropertyName can raise. */
  datatype PropertyNameError =
    | NotAnAccessor        // IllegalArgumentException: neither getter nor setter
    | SubstringOutOfRange  // StringIndexOutOfBoundsException from substring(2, ...)
    | EmptyPropertyName    // ArrayIndexOutOfBoundsException from c[0] on an empty array

  /** Lowers the first character; every other character is kept. An empty
      input has no first character and fails. */
  function FirstCharacterToLowerCase(input: string): (r: Result<string, PropertyNameError>)
    ensures r.Failure? <==> |input| == 0
    ensures r.Failure? ==> r.error == EmptyPropertyName
    ensures r.Success? ==>
      && |r.value| == |input|
      && r.value[0] == LowerChar(input[0])
      && forall i :: 1 <= i < |input| ==> r.value[i] == input[i]
  {
    if |input| == 0 then Failure(EmptyPropertyName)
    else Success(input[0 := LowerChar(input[0])])
  }

  /** How many characters toPropertyName drops from the method name. */
  function PrefixLength(m: MethodSignature): nat {
    if IsBoolGetter(m) then |IS| else |GET|
  }

  /** The property an accessor stands for. A boolean- or Boolean-returning
      method loses two characters, any other getter or setter three; the
      first remaining character is lowered. The boolean branch does not
      check that the method is an accessor at all. */
  function ToPropertyName(m: MethodSignature): (r: Result<string, PropertyNameError>)
    ensures r == Failure(NotAnAccessor) <==> !IsBoolGetter(m) && !IsGetterOrSetter(m)
    ensures r == Failure(SubstringOutOfRange) <==> IsBoolGetter(m) && |m.name| < 2
    ensures r.Success? <==>
      (IsBoolGetter(m) || IsGetterOrSetter(m)) && |m.name| > PrefixLength(m)
    ensures r.Success? ==>
      && |r.value| == |m.name| - PrefixLength(m)
      && r.value[0] == LowerChar(m.name[PrefixLength(m)])
      && forall i :: 1 <= i < |r.value| ==> r.value[i] == m.name[PrefixLength(m) + i]
  {
    var name := m.name;
    if IsBoolGetter(m) then
      if |name| < 2 then Failure(SubstringOutOfRange)
      else FirstCharacterToLowerCase(name[2..])
    else if IsGetterOrSetter(m) then
      FirstCharacterToLowerCase(name[3..])
    else
      Failure(NotAnAccessor)
  }

  /** ToPropertyName as its documentation describes it: only a getter or a
      setter has a property name. */
  function ToPropertyNameChecked(m: MethodSignature): (r: Result<string, PropertyNameError>)
    ensures r.Success? ==> IsGetterOrSetter(m)
    ensures r != Failure(SubstringOutOfRange)
    ensures r == Failure(NotAnAccessor) <==> !IsGetterOrSetter(m)
    ensures IsGetterOrSetter(m) ==> r == ToPropertyName(m)
  {
    if IsGetterOrSetter(m) then
      ToPropertyName(m)
    else
      Failure(NotAnAccessor)
  }

  /** A boolean-returning method that is no accessor still gets a property
      name from ToPropertyName: hasChildren() yields "sChildren". */
  lemma NonAccessorGetsPropertyName()
    ensures var m := MethodSignature("hasChildren", 0, Primitive(Boolean));
      && !IsGetterOrSetter(m)
      && ToPropertyName(m) == Success("sChildren")
      && ToPropertyNameChecked(m) == Failure(NotAnAccessor)
  {
    var m := MethodSignature("hasChildren", 0, Primitive(Boolean));
    assert !(IS <= m.name) by { assert m.name[0] != IS[0]; }
    assert !(SET <= m.name) by { assert m.name[0] != SET[0]; }
    assert m.name[2..] == "sChildren";
    assert LowerChar('s') == 's';
    assert "sChildren"[0 := 's'] == "sChildren";
  }

  /** Character.toUpperCase restricted to ASCII letters. */
  function UpperChar(c: char): char {
    if IsAsciiLower(c) then (c as int - 32) as char else c
  }

  /** The JavaBeans capitalisation of a property name in its accessor names. */
  function Capitalize(p: string): string
    requires |p| > 0
  {
    [UpperChar(p[0])] + p[1..]
  }

  /** The three accessor shapes a property can have. A plain getter's return
      type is given; a boolean getter returns boolean or Boolean. */
  datatype AccessorKind = Getter(returnType: JavaType) | BooleanGetter(boxed: bool) | Setter

  /** The accessor of the given kind that the JavaBeans naming patterns
      associate with property p. */
  function Accessor(p: string, kind: AccessorKind): MethodSignature
    requires |p| > 0
  {
    match kind
    case Getter(t) => MethodSignature(GET + Capitalize(p), 0, t)
    case BooleanGetter(boxed) =>
      MethodSignature(IS + Capitalize(p), 0, if boxed then Boxed(Boolean) else Primitive(Boolean))
    case Setter => MethodSignature(SET + Capitalize(p), 1, Primitive(Void))
  }

  /** Every accessor built from a property name is classified as a getter or
      setter, and ToPropertyName recovers the property from it, provided the
      property does not start with a capital letter. */
  lemma {:induction false} AccessorRoundTrip(p: string, kind: AccessorKind)
    requires |p| > 0 && !IsAsciiUpper(p[0])
    requires kind.Getter? ==> kind.returnType != Primitive(Void) && !IsBool(kind.returnType)
    ensures IsGetterOrSetter(Accessor(p, kind))
    ensures ToPropertyName(Accessor(p, kind)) == Success(p)
  {
    var m := Accessor(p, kind);
    LowerCapitalized(p);
    match kind
    case Getter(_) =>
      PrefixedName(GET, p);
      assert ToPropertyName(m) == FirstCharacterToLowerCase(m.name[3..]);
    case BooleanGetter(_) =>
      PrefixedName(IS, p);
      assert ToPropertyName(m) == FirstCharacterToLowerCase(m.name[2..]);
    case Setter =>
      PrefixedName(SET, p);
      assert ToPropertyName(m) == FirstCharacterToLowerCase(m.name[3..]);
  }

  lemma PrefixedName(prefix: string, p: string)
    requires |p| > 0
    ensures prefix <= prefix + Capitalize(p)
    ensures (prefix + Capitalize(p))[|prefix|..] == Capitalize(p)
  {
  }

  /** Lowering the first character undoes Capitalize on a name that does not
      start with a capital. */
  lemma LowerCapitalized(p: string)
    requires |p| > 0 && !IsAsciiUpper(p[0])
    ensures FirstCharacterToLowerCase(Capitalize(p)) == Success(p)
  {
    var r := FirstCharacterToLowerCase(Capitalize(p));
    assert LowerChar(UpperChar(p[0])) == p[0];
    assert r.value == p;
  }

  /** Introspector.decapitalize, as section 8.8 of the JavaBeans 1.01
      specification describes it: a name starting with two capitals is kept. */
  function Decapitalize(s: string): string {
    if |s| == 0 then s
    else if |s| > 1 && IsAsciiUpper(s[0]) && IsAsciiUpper(s[1]) then s
    else [LowerChar(s[0])] + s[1..]
  }

  /** ToPropertyName agrees with the JavaBeans decapitalisation of the name
      after the prefix exactly when that suffix does not start with two
      capitals. */
  lemma TwoCapitalsDeparture(m: MethodSignature)
    requires ToPropertyName(m).Success?
    ensures var suffix := m.name[PrefixLength(m)..];
      ToPropertyName(m).value == Decapitalize(suffix) <==>
        !(|suffix| > 1 && IsAsciiUpper(suffix[0]) && IsAsciiUpper(suffix[1]))
  {
  }

  /** getURL() names the property "uRL", where JavaBeans would keep "URL". */
  lemma UrlExample()
    ensures ToPropertyName(MethodSignature("getURL", 0, StringClass)) == Success("uRL")
    ensures Decapitalize("URL") == "URL"
  {
    var m := MethodSignature("getURL", 0, StringClass);
    assert GET <= m.name;
    assert m.name[3..] == "URL";
    assert "URL"[0 := 'u'] == "uRL";
  }
}
