/**
 * The managed-side view registry of the C# binding.
 *
 * Custom views written in C# register their type once: the registry keeps a
 * name → constructor table, tells DALi's native type registry about the
 * control and about every readable property marked as scriptable, and keeps
 * a native handle → view table so that the native side can reach the C#
 * object when a script creates a control or sets one of its properties.
 */
module ViewRegistration {
  import opened Wrappers
  import opened PropertyMap

  /** The DALi property types the registry hands to the native type registry. */
  datatype PropertyType = NONE | BOOLEAN | FLOAT | INTEGER | VECTOR2 | VECTOR3 | VECTOR4 | STRING | MAP

  /** The managed types a property of a view may have; `OtherType` carries its type name. */
  datatype ClrType =
    | Int32Type | BooleanType | SingleType | StringType
    | Vector2Type | Vector3Type | Vector4Type | PositionType | SizeType | ColorType
    | OtherType(name: string)

  /** The `Name` reflection reports for a managed type (`float` is `Single`, `string` is `String`). */
  function TypeName(t: ClrType): string
  {
    match t
    case Int32Type => "Int32"
    case BooleanType => "Boolean"
    case SingleType => "Single"
    case StringType => "String"
    case Vector2Type => "Vector2"
    case Vector3Type => "Vector3"
    case Vector4Type => "Vector4"
    case PositionType => "Position"
    case SizeType => "Size"
    case ColorType => "Color"
    case OtherType(n) => n
  }

  /** The registry's lookup table from managed type names to DALi property types, as written. */
  const TYPE_LOOKUP: map<string, PropertyType> := map[
    "float" := FLOAT, "int" := INTEGER, "Int32" := INTEGER, "Boolean" := BOOLEAN, "string" := STRING,
    "Vector2" := VECTOR2, "Vector3" := VECTOR3, "Vector4" := VECTOR4,
    "Size" := VECTOR2, "Position" := VECTOR3, "Color" := VECTOR4]

  const KNOWN_TYPE_NAMES: set<string> :=
    {"float", "int", "Int32", "Boolean", "string", "Vector2", "Vector3", "Vector4", "Size", "Position", "Color"}

  /** The DALi type for a managed type name; NONE for a name the table does not know. */
  function GetDaliPropertyType(typeName: string): (r: PropertyType)
    ensures typeName !in KNOWN_TYPE_NAMES <==> r == NONE
    ensures typeName == "float" ==> r == FLOAT
    ensures typeName == "int" || typeName == "Int32" ==> r == INTEGER
    ensures typeName == "Boolean" ==> r == BOOLEAN
    ensures typeName == "string" ==> r == STRING
    ensures typeName == "Vector2" || typeName == "Size" ==> r == VECTOR2
    ensures typeName == "Vector3" || typeName == "Position" ==> r == VECTOR3
    ensures typeName == "Vector4" || typeName == "Color" ==> r == VECTOR4
  {
    if typeName in TYPE_LOOKUP then TYPE_LOOKUP[typeName] else NONE
  }

  /**
   * The table is keyed by the C# keywords `float` and `string`, but a property's
   * type reports the names `Single` and `String`: a float or string property is
   * registered with the type NONE.
   */
  lemma FloatAndStringPropertiesRegisterAsNone()
    ensures GetDaliPropertyType(TypeName(SingleType)) == NONE
    ensures GetDaliPropertyType(TypeName(StringType)) == NONE
    ensures forall x: real :: Convert(SingleType, RealValue(x)).Some?
    ensures forall s: string :: Convert(StringType, StringValue(s)).Some?
  {
    assert TypeName(SingleType) !in KNOWN_TYPE_NAMES;
    assert TypeName(StringType) !in KNOWN_TYPE_NAMES;
  }

  /** The table keyed by the names reflection reports, which is what the registration intends. */
  const CORRECTED_TYPE_LOOKUP: map<string, PropertyType> := TYPE_LOOKUP["Single" := FLOAT]["String" := STRING]

  /** The DALi type a property of managed type `t` is registered with. */
  function PropertyTypeOf(t: ClrType): (r: PropertyType)
    ensures t == Int32Type ==> r == INTEGER
    ensures t == BooleanType ==> r == BOOLEAN
    ensures t == SingleType ==> r == FLOAT
    ensures t == StringType ==> r == STRING
    ensures t == Vector2Type || t == SizeType ==> r == VECTOR2
    ensures t == Vector3Type || t == PositionType ==> r == VECTOR3
    ensures t == Vector4Type || t == ColorType ==> r == VECTOR4
  {
    var name := TypeName(t);
    if name in CORRECTED_TYPE_LOOKUP then CORRECTED_TYPE_LOOKUP[name] else NONE
  }

  /** The DALi type of a property value. */
  function ValueType(v: Value): PropertyType
  {
    match v
    case NoValue => NONE
    case BoolValue(_) => BOOLEAN
    case IntValue(_) => INTEGER
    case RealValue(_) => FLOAT
    case StringValue(_) => STRING
    case Vector2Value(_) => VECTOR2
    case Vector3Value(_) => VECTOR3
    case Vector4Value(_) => VECTOR4
    case MapValue(_) => MAP
  }

  /** The value of a property of a view, in managed terms. */
  datatype ClrValue =
    | Int32Val(i: int)
    | BooleanVal(b: bool)
    | SingleVal(f: real)
    | StringVal(s: string)
    | Vector2Val(v2: Vector2)
    | Vector3Val(v3: Vector3)
    | Vector4Val(v4: Vector4)
    | PositionVal(position: Vector3)
    | SizeVal(size: Vector3)
    | ColorVal(color: Vector4)
    | OtherVal(typeName: string)

  function TypeOf(v: ClrValue): ClrType
  {
    match v
    case Int32Val(_) => Int32Type
    case BooleanVal(_) => BooleanType
    case SingleVal(_) => SingleType
    case StringVal(_) => StringType
    case Vector2Val(_) => Vector2Type
    case Vector3Val(_) => Vector3Type
    case Vector4Val(_) => Vector4Type
    case PositionVal(_) => PositionType
    case SizeVal(_) => SizeType
    case ColorVal(_) => ColorType
    case OtherVal(n) => OtherType(n)
  }

  /**
   * Reading a DALi property value as a managed type: it succeeds only when the
   * value holds the DALi type of that managed type, and the result has that
   * managed type. Position and Size read a Vector3, Color reads a Vector4.
   */
  function Convert(t: ClrType, v: Value): (r: Option<ClrValue>)
    ensures r.Some? ==> TypeOf(r.value) == t
  {
    match t
    case Int32Type => if v.IntValue? then Some(Int32Val(v.i)) else None
    case BooleanType => if v.BoolValue? then Some(BooleanVal(v.b)) else None
    case SingleType => if v.RealValue? then Some(SingleVal(v.r)) else None
    case StringType => if v.StringValue? then Some(StringVal(v.s)) else None
    case Vector2Type => if v.Vector2Value? then Some(Vector2Val(v.v2)) else None
    case Vector3Type => if v.Vector3Value? then Some(Vector3Val(v.v3)) else None
    case Vector4Type => if v.Vector4Value? then Some(Vector4Val(v.v4)) else None
    case PositionType => if v.Vector3Value? then Some(PositionVal(v.v3)) else None
    case SizeType => if v.Vector3Value? then Some(SizeVal(v.v3)) else None
    case ColorType => if v.Vector4Value? then Some(ColorVal(v.v4)) else None
    case OtherType(_) => None
  }

  /**
   * With the corrected table, a property accepts exactly the values of the
   * type it is registered with. Size is the exception: the table registers it
   * as VECTOR2 while the setter reads three components.
   */
  lemma RegisteredTypeIsTheConvertedType(t: ClrType, v: Value)
    requires !t.OtherType? && t != SizeType
    ensures Convert(t, v).Some? <==> ValueType(v) == PropertyTypeOf(t)
  {
    match t
    case Int32Type =>
    case BooleanType =>
    case SingleType =>
    case StringType =>
    case Vector2Type =>
    case Vector3Type =>
    case Vector4Type =>
    case PositionType =>
    case ColorType =>
  }

  /** A Size property is registered as VECTOR2, yet only a three component value sets it. */
  lemma SizeIsRegisteredAsVector2ButReadAsVector3(v: Value)
    ensures PropertyTypeOf(SizeType) == VECTOR2
    ensures Convert(SizeType, v).Some? <==> ValueType(v) == VECTOR3
  {
  }

  /**
   * The ways a registry operation fails. In the source, DuplicateViewName is the
   * ArgumentException of adding a name the constructor map already has, NoSuchProperty is a
   * null dereference, and the others are InvalidOperationExceptions.
   */
  datatype RegistryError =
    | ViewNotRegistered
    | DuplicateViewName
    | ControlNotRegistered
    | NoSuchProperty
    | UnimplementedType
    | ConversionFailed

  /** A property declared by a view class, as reflection describes it. */
  datatype Attribute = ScriptableProperty | OtherAttribute(name: string)
  datatype PropertyInfo = PropertyInfo(name: string, propertyType: ClrType, canRead: bool, attributes: seq<Attribute>)
  datatype ViewType = ViewType(name: string, properties: seq<PropertyInfo>)

  predicate IsScriptable(p: PropertyInfo)
  {
    ScriptableProperty in p.attributes
  }

  /** What the native type registry has been told. */
  datatype Registration =
    | ControlRegistration(typeName: string)
    | PropertyRegistration(typeName: string, propertyName: string, propertyType: PropertyType)

  /** The registrations for one property: one for each ScriptableProperty attribute among `attrs`. */
  function AttributeRegistrations(typeName: string, p: PropertyInfo, attrs: seq<Attribute>): seq<Registration>
  {
    if |attrs| == 0 then []
    else AttributeRegistrations(typeName, p, attrs[..|attrs| - 1]) +
         if attrs[|attrs| - 1].ScriptableProperty? then [PropertyRegistration(typeName, p.name, PropertyTypeOf(p.propertyType))] else []
  }

  /** The registrations for a list of properties, in order; unreadable properties are skipped. */
  function PropertyRegistrations(typeName: string, props: seq<PropertyInfo>): seq<Registration>
  {
    if |props| == 0 then []
    else PropertyRegistrations(typeName, props[..|props| - 1]) +
         var p := props[|props| - 1];
         if p.canRead then AttributeRegistrations(typeName, p, p.attributes) else []
  }

  /** A property's own registrations are for it, and there is one exactly when it carries the attribute. */
  lemma {:induction false} AttributeRegistrationsAreForTheProperty(typeName: string, p: PropertyInfo, attrs: seq<Attribute>)
    ensures forall r :: r in AttributeRegistrations(typeName, p, attrs) ==>
              r == PropertyRegistration(typeName, p.name, PropertyTypeOf(p.propertyType))
    ensures ScriptableProperty in attrs <==> |AttributeRegistrations(typeName, p, attrs)| > 0
  {
    if |attrs| > 0 {
      AttributeRegistrationsAreForTheProperty(typeName, p, attrs[..|attrs| - 1]);
      assert attrs == attrs[..|attrs| - 1] + [attrs[|attrs| - 1]];
    }
  }

  /**
   * Register registers exactly the readable scriptable properties: every
   * registration is for such a property, with its type, and every such
   * property is registered.
   */
  lemma {:induction false} RegistersExactlyTheReadableScriptableProperties(typeName: string, props: seq<PropertyInfo>)
    ensures forall r :: r in PropertyRegistrations(typeName, props) ==>
              exists i :: 0 <= i < |props| && props[i].canRead && IsScriptable(props[i]) &&
                          r == PropertyRegistration(typeName, props[i].name, PropertyTypeOf(props[i].propertyType))
    ensures forall i :: 0 <= i < |props| && props[i].canRead && IsScriptable(props[i]) ==>
              PropertyRegistration(typeName, props[i].name, PropertyTypeOf(props[i].propertyType)) in PropertyRegistrations(typeName, props)
  {
    if |props| > 0 {
      var init := props[..|props| - 1];
      var p := props[|props| - 1];
      RegistersExactlyTheReadableScriptableProperties(typeName, init);
      AttributeRegistrationsAreForTheProperty(typeName, p, p.attributes);
      var tail := if p.canRead then AttributeRegistrations(typeName, p, p.attributes) else [];
      assert PropertyRegistrations(typeName, props) == PropertyRegistrations(typeName, init) + tail;
      forall r | r in PropertyRegistrations(typeName, props)
        ensures exists i :: 0 <= i < |props| && props[i].canRead && IsScriptable(props[i]) &&
                            r == PropertyRegistration(typeName, props[i].name, PropertyTypeOf(props[i].propertyType))
      {
        if r in PropertyRegistrations(typeName, init) {
          var i :| 0 <= i < |init| && init[i].canRead && IsScriptable(init[i]) &&
                   r == PropertyRegistration(typeName, init[i].name, PropertyTypeOf(init[i].propertyType));
          assert props[i] == init[i];
        } else {
          assert r in tail;
          assert props[|props| - 1] == p;
        }
      }
      forall i | 0 <= i < |props| && props[i].canRead && IsScriptable(props[i])
        ensures PropertyRegistration(typeName, props[i].name, PropertyTypeOf(props[i].propertyType)) in PropertyRegistrations(typeName, props)
      {
        if i < |init| {
          assert props[i] == init[i];
        } else {
          assert props[i] == p;
          assert tail[0] in tail;
        }
      }
    }
  }

  /** What a view class's create function builds: a view with these properties. */
  datatype Factory = Factory(properties: map<string, ClrValue>)

  /** A C# view, reachable from native code through the handle of its native object. */
  class View {
    const handle: nat
    const typeName: string
    var properties: map<string, ClrValue>

    constructor(handle: nat, typeName: string, properties: map<string, ClrValue>)
      ensures this.handle == handle && this.typeName == typeName && this.properties == properties
    {
      this.handle := handle;
      this.typeName := typeName;
      this.properties := properties;
    }
  }

  /** The handle → view table after registering `view`: an existing entry is kept. */
  function WithView(m: map<nat, View>, view: View): (r: map<nat, View>)
    ensures view.handle in r && r[view.handle] == (if view.handle in m then m[view.handle] else view)
    ensures forall h :: h != view.handle ==> (h in r <==> h in m) && (h in m ==> r[h] == m[h])
  {
    if view.handle in m then m else m[view.handle := view]
  }

  /** Registering the same view twice changes nothing the second time. */
  lemma RegisterViewIsIdempotent(m: map<nat, View>, view: View)
    ensures WithView(WithView(m, view), view) == WithView(m, view)
  {
  }

  /** Unregistering a view that registration just added restores the table. */
  lemma UnregisterUndoesRegister(m: map<nat, View>, view: View)
    requires view.handle !in m
    ensures WithView(m, view) - {view.handle} == m
  {
  }

  /**
   * Setting a property on a view's property table: the property must exist,
   * its type must be one the registry converts, and the value must convert.
   */
  function SetProperty(props: map<string, ClrValue>, name: string, v: Value): (r: Result<map<string, ClrValue>, RegistryError>)
    ensures name !in props ==> r == Err(NoSuchProperty)
    ensures name in props && TypeOf(props[name]).OtherType? ==> r == Err(UnimplementedType)
    ensures r.Ok? ==> r.value.Keys == props.Keys && TypeOf(r.value[name]) == TypeOf(props[name]) &&
                      forall n :: n in props && n != name ==> r.value[n] == props[n]
  {
    if name !in props then Err(NoSuchProperty)
    else
      var t := TypeOf(props[name]);
      if t.OtherType? then Err(UnimplementedType)
      else match Convert(t, v)
        case None => Err(ConversionFailed)
        case Some(c) => Ok(props[name := c])
  }

  /**
   * A value of the type a property is registered with is always accepted, and
   * reading the property back gives the converted value.
   */
  lemma SetPropertyAcceptsTheRegisteredType(props: map<string, ClrValue>, name: string, v: Value)
    requires name in props && !TypeOf(props[name]).OtherType? && TypeOf(props[name]) != SizeType
    requires ValueType(v) == PropertyTypeOf(TypeOf(props[name]))
    ensures SetProperty(props, name, v).Ok?
    ensures SetProperty(props, name, v).value[name] == Convert(TypeOf(props[name]), v).value
  {
    RegisteredTypeIsTheConvertedType(TypeOf(props[name]), v);
  }

  /** A value of any other type is refused with ConversionFailed and nothing changes. */
  lemma SetPropertyRefusesOtherTypes(props: map<string, ClrValue>, name: string, v: Value)
    requires name in props && !TypeOf(props[name]).OtherType? && TypeOf(props[name]) != SizeType
    requires ValueType(v) != PropertyTypeOf(TypeOf(props[name]))
    ensures SetProperty(props, name, v) == Err(ConversionFailed)
  {
    RegisteredTypeIsTheConvertedType(TypeOf(props[name]), v);
  }

  class ViewRegistry {
    /** Native handle → view; the source keeps weak references. */
    var controlMap: map<nat, View>
    /** View type name → create function. */
    var constructorMap: map<string, Factory>
    /** Everything told to the native type registry, in order. */
    var typeRegistry: seq<Registration>

    constructor()
      ensures controlMap == map[] && constructorMap == map[] && typeRegistry == []
    {
      controlMap := map[];
      constructorMap := map[];
      typeRegistry := [];
    }

    /** The view registered for the native object of `view`, or null. */
    function GetViewFromActor(view: View): (r: Option<View>)
      reads this
      ensures r.Some? <==> view.handle in controlMap
      ensures r.Some? ==> r.value == controlMap[view.handle]
    {
      if view.handle in controlMap then Some(controlMap[view.handle]) else None
    }

    /** Records the view under its handle unless the handle is already registered. */
    method RegisterView(view: View)
      modifies this
      ensures controlMap == WithView(old(controlMap), view)
      ensures constructorMap == old(constructorMap) && typeRegistry == old(typeRegistry)
      ensures GetViewFromActor(view).Some?
    {
      if view.handle !in controlMap {
        controlMap := controlMap[view.handle := view];
      }
    }

    /** Removes the entry for the view's handle, if there is one. */
    method UnregisterView(view: View)
      modifies this
      ensures controlMap == old(controlMap) - {view.handle}
      ensures constructorMap == old(constructorMap) && typeRegistry == old(typeRegistry)
      ensures GetViewFromActor(view).None?
    {
      if view.handle in controlMap {
        controlMap := controlMap - {view.handle};
      }
    }

    /**
     * Creates a control of a registered view type; the native handle of the
     * new view is chosen by the native side and given here.
     */
    method CreateControl(controlName: string, handle: nat) returns (r: Result<View, RegistryError>)
      ensures controlName !in constructorMap <==> r.Err?
      ensures r.Err? ==> r.error == ViewNotRegistered
      ensures r.Ok? ==> fresh(r.value) && r.value.handle == handle && r.value.typeName == controlName &&
                        r.value.properties == constructorMap[controlName].properties
    {
      if controlName in constructorMap {
        var view := new View(handle, controlName, constructorMap[controlName].properties);
        r := Ok(view);
      } else {
        r := Err(ViewNotRegistered);
      }
    }

    /**
     * Registers a view type: its create function, the control with the native
     * type registry, then each readable scriptable property with its DALi type.
     * A type name registered before is an error and changes nothing.
     */
    method Register(createFunction: Factory, viewType: ViewType) returns (r: Result<(), RegistryError>)
      modifies this
      ensures viewType.name in old(constructorMap) ==>
                r == Err(DuplicateViewName) && constructorMap == old(constructorMap) && typeRegistry == old(typeRegistry)
      ensures viewType.name !in old(constructorMap) ==>
                r.Ok? && constructorMap == old(constructorMap)[viewType.name := createFunction] &&
                typeRegistry == old(typeRegistry) + [ControlRegistration(viewType.name)] +
                                PropertyRegistrations(viewType.name, viewType.properties)
      ensures controlMap == old(controlMap)
    {
      if viewType.name in constructorMap {
        return Err(DuplicateViewName);
      }
      constructorMap := constructorMap[viewType.name := createFunction];
      typeRegistry := typeRegistry + [ControlRegistration(viewType.name)];
      ghost var start := typeRegistry;
      var props := viewType.properties;
      var i := 0;
      while i < |props|
        invariant 0 <= i <= |props|
        invariant typeRegistry == start + PropertyRegistrations(viewType.name, props[..i])
        invariant constructorMap == old(constructorMap)[viewType.name := createFunction] && controlMap == old(controlMap)
      {
        var p := props[i];
        assert props[..i + 1][..i] == props[..i];
        if p.canRead {
          RegisterScriptableAttributes(viewType.name, p);
        }
        i := i + 1;
      }
      assert props[..i] == props;
      r := Ok(());
    }

    /** Registers the property once for each ScriptableProperty attribute it carries. */
    method RegisterScriptableAttributes(typeName: string, p: PropertyInfo)
      modifies this
      ensures typeRegistry == old(typeRegistry) + AttributeRegistrations(typeName, p, p.attributes)
      ensures constructorMap == old(constructorMap) && controlMap == old(controlMap)
    {
      var attrs := p.attributes;
      var j := 0;
      while j < |attrs|
        invariant 0 <= j <= |attrs|
        invariant typeRegistry == old(typeRegistry) + AttributeRegistrations(typeName, p, attrs[..j])
        invariant constructorMap == old(constructorMap) && controlMap == old(controlMap)
      {
        assert attrs[..j + 1][..j] == attrs[..j];
        if attrs[j].ScriptableProperty? {
          var propertyType := PropertyTypeOf(p.propertyType);
          typeRegistry := typeRegistry + [PropertyRegistration(typeName, p.name, propertyType)];
        }
        j := j + 1;
      }
      assert attrs[..j] == attrs;
    }

    /**
     * The value of a property of a registered control; an unregistered
     * control gives a null pointer (None), a missing property is a null
     * dereference.
     */
    function GetPropertyValue(controlPtr: nat, propertyName: string): (r: Result<Option<ClrValue>, RegistryError>)
      reads this, controlMap.Values
      ensures controlPtr !in controlMap ==> r == Ok(None)
      ensures controlPtr in controlMap ==>
                (propertyName in controlMap[controlPtr].properties <==> r.Ok?) &&
                (r.Ok? ==> r.value == Some(controlMap[controlPtr].properties[propertyName]))
    {
      if controlPtr !in controlMap then Ok(None)
      else
        var view := controlMap[controlPtr];
        if propertyName in view.properties then Ok(Some(view.properties[propertyName])) else Err(NoSuchProperty)
    }

    /**
     * Sets a property of a registered control from a DALi property value.
     * Fails for an unregistered control, a missing property, a property type
     * the registry does not convert, or a value that does not convert; a
     * failure changes nothing.
     */
    method SetPropertyValue(controlPtr: nat, propertyName: string, value: Value) returns (r: Result<(), RegistryError>)
      modifies if controlPtr in controlMap then {controlMap[controlPtr]} else {}
      ensures controlPtr !in controlMap ==> r == Err(ControlNotRegistered)
      ensures controlPtr in controlMap ==>
                var view := controlMap[controlPtr];
                match SetProperty(old(view.properties), propertyName, value)
                case Ok(props) => r.Ok? && view.properties == props
                case Err(e) => r == Err(e) && view.properties == old(view.properties)
    {
      if controlPtr !in controlMap {
        return Err(ControlNotRegistered);
      }
      var view := controlMap[controlPtr];
      if propertyName !in view.properties {
        return Err(NoSuchProperty);
      }
      var t := TypeOf(view.properties[propertyName]);
      if t.OtherType? {
        return Err(UnimplementedType);
      }
      var converted := Convert(t, value);
      if converted.None? {
        return Err(ConversionFailed);
      }
      view.properties := view.properties[propertyName := converted.value];
      r := Ok(());
    }
  }

  /** The lazily created registry singleton. */
  class RegistrySingleton {
    var instance: ViewRegistry?

    constructor()
      ensures instance == null
    {
      instance := null;
    }

    /** The registry: created empty on first use, the same object afterwards. */
    method Instance() returns (r: ViewRegistry)
      modifies this
      ensures old(instance) != null ==> r == old(instance)
      ensures old(instance) == null ==> fresh(r) && r.controlMap == map[] && r.constructorMap == map[] && r.typeRegistry == []
      ensures instance == r
    {
      if instance == null {
        instance := new ViewRegistry();
      }
      r := instance;
    }
  }
}
