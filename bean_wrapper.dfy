/**
 * The bean wrapper: it holds a target object (given, or created lazily from
 * the bean's class), resolves property names to handles through the class's
 * descriptor table, and caches the handles it builds, plain ones by name and
 * indexed ones by name in both caches.
 */
module BeanWrapper {
  import opened Wrappers
  import opened PropertyAccess

  /**
   * What the descriptor lookup the indexed path uses does for a name the class
   * has no descriptor for: answer null, or raise the not-found error itself.
   */
  datatype UnknownNameLookup = YieldsNull | RaisesNotFound

  /**
   * The introspected shape of one bean type: its name, its property
   * descriptors by name, the initial fields of an instance made with the
   * default constructor (None when there is no usable one), and how the
   * indexed path's descriptor lookup treats an unknown name.
   */
  datatype BeanClass = BeanClass(typeName: TypeName, descriptors: map<string, Descriptor>,
                                 defaultInstance: Option<map<string, Value>>, unknownIndexedName: UnknownNameLookup)
  {
    /** Introspection files every descriptor under its own name. */
    ghost predicate WellFormed()
    {
      forall n :: n in descriptors ==> descriptors[n].name == n
    }

    /** There is a descriptor for `name` and it is indexed. */
    predicate HasIndexed(name: string)
    {
      name in descriptors && descriptors[name].indexed
    }

    /** The indexed path's descriptor lookup raises not-found for `name`. */
    predicate IndexedLookupRaises(name: string)
    {
      name !in descriptors && unknownIndexedName == RaisesNotFound
    }
  }

  /** The errors a wrapper raises. `NullDereference` only arises in the as-written lookups. */
  datatype BeanError =
    | NoSuchProperty(beanType: TypeName, property: string)
    | ConstructionFailure(beanType: TypeName)
    | NullDereference

  /** What an internal lookup yields: a handle, null, or a raised error. */
  datatype Lookup = Found(handle: Property) | Absent | Raised(error: BeanError)

  /** The lookup a public accessor's result stands for. */
  function ToLookup(r: Result<Property, BeanError>): Lookup
  {
    match r
    case Success(p) => Found(p)
    case Failure(NoSuchProperty(_, _)) => Absent
    case Failure(e) => Raised(e)
  }

  class Bean {
    var target: Option<BeanObject>
    const beanClass: BeanClass
    var properties: map<string, Property>
    var indexedProperties: map<string, Property>

    /**
     * The wrapper's invariant: a target is of the bean's class; every cached
     * handle is bound to the target and to the class's descriptor for its
     * name, and keeps its own invariant; an indexed handle is cached under
     * the same name in both caches.
     */
    ghost predicate Valid()
      reads this, properties.Values
    {
      && beanClass.WellFormed()
      && (target.Some? ==> target.value.className == beanClass.typeName)
      && (forall n :: n in properties ==> BoundHandle(n, properties[n]))
      && (forall n :: n in properties ==> properties[n].Valid())
      && (forall n :: n in indexedProperties ==>
            n in properties && properties[n] == indexedProperties[n] && indexedProperties[n].indexed)
    }

    /** `h` is bound to the target and is the handle for descriptor `n`. */
    ghost predicate BoundHandle(n: string, h: Property)
      reads this
    {
      && target.Some? && h.bean == target.value
      && n in beanClass.descriptors && h.descriptor == beanClass.descriptors[n]
      && (h.indexed ==> h.descriptor.indexed)
    }

    /** Wraps an existing bean: the target is bound now, no instance is made. */
    constructor FromInstance(bean: BeanObject, beanClass: BeanClass)
      requires beanClass.WellFormed() && bean.className == beanClass.typeName
      ensures Valid()
      ensures target == Some(bean) && this.beanClass == beanClass
      ensures properties == map[] && indexedProperties == map[]
    {
      target := Some(bean);
      this.beanClass := beanClass;
      properties := map[];
      indexedProperties := map[];
    }

    /** Wraps a bean class: the target stays absent until a property is resolved. */
    constructor FromClass(beanClass: BeanClass)
      requires beanClass.WellFormed()
      ensures Valid()
      ensures target == None && this.beanClass == beanClass
      ensures properties == map[] && indexedProperties == map[]
    {
      target := None;
      this.beanClass := beanClass;
      properties := map[];
      indexedProperties := map[];
    }

    /**
     * The target is present afterwards: the same object as before when there
     * was one, else a fresh default instance of the bean's class, whose
     * fields are those the default constructor sets.
     */
    twostate predicate Materialised()
      reads this, if target.Some? then {target.value} else {}
    {
      && target.Some?
      && (old(target).Some? ==> target == old(target))
      && (old(target).None? ==> fresh(target.value) && beanClass.defaultInstance.Some?
                                && target.value.fields == beanClass.defaultInstance.value)
    }

    /** No field of the wrapper changed. */
    twostate predicate Unchanged()
      reads this
    {
      target == old(target) && properties == old(properties) && indexedProperties == old(indexedProperties)
    }

    /**
     * The effect of a plain lookup of `name` yielding `l`: a cached handle is
     * returned and nothing changes; an unknown name yields null and nothing
     * changes; otherwise the target is materialised (or its construction
     * fails, changing nothing) and a fresh plain handle is cached.
     */
    twostate predicate ScalarResolution(name: string, new l: Lookup)
      reads this, if l.Found? then {l.handle} else {}, if target.Some? then {target.value} else {}
    {
      if name in old(properties) then
        l == Found(old(properties)[name]) && Unchanged()
      else if name !in beanClass.descriptors then
        l == Absent && Unchanged()
      else if old(target).None? && beanClass.defaultInstance.None? then
        l == Raised(ConstructionFailure(beanClass.typeName)) && Unchanged()
      else
        && l.Found? && fresh(l.handle) && !l.handle.indexed && l.handle.typeCache == None
        && l.handle.descriptor == beanClass.descriptors[name]
        && properties == old(properties)[name := l.handle]
        && indexedProperties == old(indexedProperties)
        && Materialised()
    }

    /**
     * The effect of an indexed lookup of `name` yielding `l`: as a plain one,
     * but only an indexed descriptor resolves, an unknown name may raise
     * not-found from the descriptor lookup, and the fresh indexed handle is
     * cached in both caches.
     */
    twostate predicate IndexedResolution(name: string, new l: Lookup)
      reads this, if l.Found? then {l.handle} else {}, if target.Some? then {target.value} else {}
    {
      if name in old(indexedProperties) then
        l == Found(old(indexedProperties)[name]) && Unchanged()
      else if beanClass.IndexedLookupRaises(name) then
        l == Raised(NotFound(name)) && Unchanged()
      else if !beanClass.HasIndexed(name) then
        l == Absent && Unchanged()
      else if old(target).None? && beanClass.defaultInstance.None? then
        l == Raised(ConstructionFailure(beanClass.typeName)) && Unchanged()
      else
        && l.Found? && fresh(l.handle) && l.handle.indexed && l.handle.typeCache == None
        && l.handle.descriptor == beanClass.descriptors[name]
        && properties == old(properties)[name := l.handle]
        && indexedProperties == old(indexedProperties)[name := l.handle]
        && Materialised()
    }

    /**
     * The target, instantiated on first need with the class's default
     * constructor. Once present it is returned unchanged on every later call;
     * a failed construction leaves the target absent.
     */
    method GetTarget() returns (r: Result<BeanObject, BeanError>)
      requires Valid()
      modifies this`target
      ensures Valid()
      ensures r.Success? <==> old(target).Some? || beanClass.defaultInstance.Some?
      ensures r.Success? ==> Materialised() && target == Some(r.value)
      ensures r.Success? && old(target).None? ==> r.value.fields == beanClass.defaultInstance.value
      ensures r.Failure? ==> r.error == ConstructionFailure(beanClass.typeName) && target == old(target)
    {
      if target.None? {
        match beanClass.defaultInstance
        case None =>
          return Failure(ConstructionFailure(beanClass.typeName));
        case Some(initial) =>
          var instance := new BeanObject(beanClass.typeName, initial);
          target := Some(instance);
      }
      r := Success(target.value);
    }

    /** Plain lookup: the cached handle, or a new one for a known name, or null. */
    method GetPropertyInternal(name: string) returns (l: Lookup)
      requires Valid()
      modifies this`properties, this`target
      ensures Valid()
      ensures ScalarResolution(name, l)
    {
      if name in properties {
        return Found(properties[name]);
      }
      if name !in beanClass.descriptors {
        return Absent;
      }
      var descriptor := beanClass.descriptors[name];
      var t := GetTarget();
      if t.Failure? {
        return Raised(t.error);
      }
      var property := new Property(t.value, descriptor);
      properties := properties[name := property];
      l := Found(property);
    }

    /** Indexed lookup: the cached indexed handle, or a new one for an indexed descriptor, or null. */
    method GetIndexedPropertyInternal(name: string) returns (l: Lookup)
      requires Valid()
      modifies this`properties, this`indexedProperties, this`target
      ensures Valid()
      ensures IndexedResolution(name, l)
    {
      if name in indexedProperties {
        return Found(indexedProperties[name]);
      }
      if beanClass.IndexedLookupRaises(name) {
        return Raised(NotFound(name));
      }
      if !beanClass.HasIndexed(name) {
        return Absent;
      }
      var descriptor := beanClass.descriptors[name];
      var t := GetTarget();
      if t.Failure? {
        return Raised(t.error);
      }
      var property := new Property.Indexed(t.value, descriptor);
      indexedProperties := indexedProperties[name := property];
      properties := properties[name := property];
      l := Found(property);
    }

    /** The not-found error, naming the bean's class. */
    function NotFound(name: string): BeanError
    {
      NoSuchProperty(beanClass.typeName, name)
    }

    /**
     * The not-found error as Bean.java builds it, from the class of the
     * target: with no target yet, that dereferences null.
     */
    function NotFoundAsWritten(name: string): (e: BeanError)
      reads this
      ensures e == NullDereference <==> target.None?
      ensures e != NullDereference ==> e.NoSuchProperty? && e.property == name && e.beanType == target.value.className
    {
      match target
      case None => NullDereference
      case Some(t) => NoSuchProperty(t.className, name)
    }

    /**
     * The handle for `name`, cached after the first resolution. Not-found is
     * raised exactly when the class has no descriptor for `name`, and then
     * nothing changes.
     */
    method GetProperty(name: string) returns (r: Result<Property, BeanError>)
      requires Valid()
      modifies this`properties, this`target
      ensures Valid()
      ensures ScalarResolution(name, ToLookup(r))
      ensures (r.Failure? && r.error.NoSuchProperty?) <==> name !in beanClass.descriptors
      ensures r.Failure? ==> r.error == NotFound(name) || r.error == ConstructionFailure(beanClass.typeName)
      ensures r.Success? ==> r.value.GetName() == name && r.value.Valid()
    {
      var l := GetPropertyInternal(name);
      match l
      case Found(p) => r := Success(p);
      case Absent => r := Failure(NotFound(name));
      case Raised(e) => r := Failure(e);
    }

    /** GetProperty as Bean.java writes it: the not-found error comes from NotFoundAsWritten. */
    method GetPropertyAsWritten(name: string) returns (r: Result<Property, BeanError>)
      requires Valid()
      modifies this`properties, this`target
      ensures Valid()
      ensures r.Success? ==> ScalarResolution(name, Found(r.value))
      ensures r.Failure? && name in beanClass.descriptors ==> ScalarResolution(name, Raised(r.error))
      ensures (r.Failure? && !r.error.ConstructionFailure?) <==> name !in beanClass.descriptors
      ensures name !in beanClass.descriptors ==> r == Failure(old(NotFoundAsWritten(name))) && Unchanged()
    {
      var l := GetPropertyInternal(name);
      match l
      case Found(p) => r := Success(p);
      case Absent => r := Failure(NotFoundAsWritten(name));
      case Raised(e) => r := Failure(e);
    }

    /**
     * The indexed handle for `name`, cached in both caches after the first
     * resolution. Not-found is raised exactly when the class has no indexed
     * descriptor for `name`, a plain one included (whether the descriptor
     * lookup answers null or raises it), and then nothing changes.
     */
    method GetIndexedProperty(name: string) returns (r: Result<Property, BeanError>)
      requires Valid()
      modifies this`properties, this`indexedProperties, this`target
      ensures Valid()
      ensures r.Success? ==> IndexedResolution(name, Found(r.value))
      ensures r.Failure? && !r.error.NoSuchProperty? ==> IndexedResolution(name, Raised(r.error))
      ensures (r.Failure? && r.error.NoSuchProperty?) <==> !beanClass.HasIndexed(name)
      ensures !beanClass.HasIndexed(name) ==> r == Failure(NotFound(name)) && Unchanged()
      ensures r.Failure? ==> r.error == NotFound(name) || r.error == ConstructionFailure(beanClass.typeName)
      ensures r.Success? ==> r.value.indexed && r.value.GetName() == name && r.value.Valid()
    {
      var l := GetIndexedPropertyInternal(name);
      match l
      case Found(p) => r := Success(p);
      case Absent => r := Failure(NotFound(name));
      case Raised(e) => r := Failure(e);
    }

    /** GetIndexedProperty as Bean.java writes it: the not-found error comes from NotFoundAsWritten. */
    method GetIndexedPropertyAsWritten(name: string) returns (r: Result<Property, BeanError>)
      requires Valid()
      modifies this`properties, this`indexedProperties, this`target
      ensures Valid()
      ensures r.Success? ==> IndexedResolution(name, Found(r.value))
      ensures r.Failure? && beanClass.HasIndexed(name) ==> IndexedResolution(name, Raised(r.error))
      ensures beanClass.IndexedLookupRaises(name) ==> r == Failure(NotFound(name)) && Unchanged()
      ensures !beanClass.HasIndexed(name) && !beanClass.IndexedLookupRaises(name) ==>
                r == Failure(old(NotFoundAsWritten(name))) && Unchanged()
    {
      var l := GetIndexedPropertyInternal(name);
      match l
      case Found(p) => r := Success(p);
      case Absent => r := Failure(NotFoundAsWritten(name));
      case Raised(e) => r := Failure(e);
    }

    /**
     * Whether a property called `name` exists. Not free of effects: a
     * positive answer caches the handle and may instantiate the target, and a
     * failed instantiation propagates.
     */
    method HasProperty(name: string) returns (r: Result<bool, BeanError>)
      requires Valid()
      modifies this`properties, this`target
      ensures Valid()
      ensures r.Success? ==> (r.value <==> name in beanClass.descriptors)
      ensures r == Success(true) ==> name in properties && ScalarResolution(name, Found(properties[name]))
      ensures r == Success(false) ==> ScalarResolution(name, Absent)
      ensures r.Failure? ==> ScalarResolution(name, Raised(r.error))
    {
      var l := GetPropertyInternal(name);
      match l
      case Found(_) => r := Success(true);
      case Absent => r := Success(false);
      case Raised(e) => r := Failure(e);
    }

    /**
     * Whether an indexed property called `name` exists; a positive answer
     * caches the indexed handle in both caches. For an unknown name the
     * descriptor lookup's not-found error, when it raises one, escapes.
     */
    method HasIndexedProperty(name: string) returns (r: Result<bool, BeanError>)
      requires Valid()
      modifies this`properties, this`indexedProperties, this`target
      ensures Valid()
      ensures r.Success? ==> (r.value <==> beanClass.HasIndexed(name))
      ensures r == Success(true) ==> name in indexedProperties && IndexedResolution(name, Found(indexedProperties[name]))
      ensures r == Success(false) ==> IndexedResolution(name, Absent)
      ensures r.Failure? ==> IndexedResolution(name, Raised(r.error))
      ensures beanClass.IndexedLookupRaises(name) ==> r == Failure(NotFound(name))
      ensures !beanClass.HasIndexed(name) && !beanClass.IndexedLookupRaises(name) ==> r == Success(false)
    {
      var l := GetIndexedPropertyInternal(name);
      match l
      case Found(_) => r := Success(true);
      case Absent => r := Success(false);
      case Raised(e) => r := Failure(e);
    }

    /**
     * HasProperty, or else HasIndexedProperty. With one descriptor table the
     * indexed probe only runs for an unknown name, so it never answers true
     * and the indexed cache never changes; for that name it answers false or
     * lets the descriptor lookup's not-found error escape.
     */
    method HasAnyProperty(name: string) returns (r: Result<bool, BeanError>)
      requires Valid()
      modifies this`properties, this`indexedProperties, this`target
      ensures Valid()
      ensures r.Success? ==> (r.value <==> name in beanClass.descriptors)
      ensures indexedProperties == old(indexedProperties)
      ensures r == Success(true) ==> name in properties && ScalarResolution(name, Found(properties[name]))
      ensures r == Success(false) ==> ScalarResolution(name, Absent)
      ensures r.Failure? && name in beanClass.descriptors ==> ScalarResolution(name, Raised(r.error))
      ensures beanClass.IndexedLookupRaises(name) ==> r == Failure(NotFound(name)) && Unchanged()
      ensures name !in beanClass.descriptors && !beanClass.IndexedLookupRaises(name) ==> r == Success(false)
    {
      r := HasProperty(name);
      if r.Failure? || r.value {
        return;
      }
      r := HasIndexedProperty(name);
    }

    /** The bean's class, fixed at construction; nothing changes. */
    method GetBeanClass() returns (c: BeanClass)
      ensures c == beanClass
    {
      c := beanClass;
    }
  }

  /** Once the target is bound, the as-written not-found error is the corrected one. */
  lemma NotFoundAgreesOnceBound(b: Bean, name: string)
    requires b.Valid() && b.target.Some?
    ensures b.NotFoundAsWritten(name) == b.NotFound(name)
  {
  }

  /**
   * A wrapper made from a class, asked for a name its class does not have
   * (plainly, or indexed for a name that is only plain): as written the
   * lookup dereferences the absent target, unless the indexed descriptor
   * lookup raises not-found first; corrected it reports not-found.
   */
  method LazyWrapperUnknownName(beanClass: BeanClass, name: string)
    returns (asWritten: Result<Property, BeanError>, corrected: Result<Property, BeanError>,
             indexedAsWritten: Result<Property, BeanError>, indexedCorrected: Result<Property, BeanError>)
    requires beanClass.WellFormed() && !beanClass.HasIndexed(name)
    ensures name !in beanClass.descriptors ==> asWritten == Failure(NullDereference)
    ensures name !in beanClass.descriptors ==> corrected == Failure(NoSuchProperty(beanClass.typeName, name))
    ensures !beanClass.IndexedLookupRaises(name) ==> indexedAsWritten == Failure(NullDereference)
    ensures beanClass.IndexedLookupRaises(name) ==> indexedAsWritten == Failure(NoSuchProperty(beanClass.typeName, name))
    ensures indexedCorrected == Failure(NoSuchProperty(beanClass.typeName, name))
  {
    var b := new Bean.FromClass(beanClass);
    indexedAsWritten := b.GetIndexedPropertyAsWritten(name);
    indexedCorrected := b.GetIndexedProperty(name);
    asWritten := b.GetPropertyAsWritten(name);
    corrected := b.GetProperty(name);
  }

  /**
   * Cache identity across the two lookups for an indexed name: a plain lookup
   * first caches a plain handle, which a repeated plain lookup returns; an
   * indexed lookup then builds an indexed handle and puts it in both caches,
   * so from then on the plain lookup returns the indexed handle instead.
   */
  method PlainThenIndexedLookup(beanClass: BeanClass, name: string)
    returns (first: Property, again: Property, indexed: Property, afterIndexed: Property)
    requires beanClass.WellFormed() && beanClass.HasIndexed(name) && beanClass.defaultInstance.Some?
    ensures again == first && !first.indexed
    ensures indexed.indexed && indexed != first
    ensures afterIndexed == indexed
    ensures first.bean == indexed.bean
  {
    var b := new Bean.FromClass(beanClass);
    var r := b.GetProperty(name);
    first := r.value;
    r := b.GetProperty(name);
    again := r.value;
    r := b.GetIndexedProperty(name);
    indexed := r.value;
    r := b.GetProperty(name);
    afterIndexed := r.value;
  }
  /**
   * The documented example, with the wrapper bound to `someBean`: a bean
   * whose `name` property is kept in the field `internalName`, set to "Hello"
   * through the handle the wrapper resolves, reads back as "Hello" through
   * the bean's getter and through a second lookup of the handle.
   */
  method SetNameThenReadBack() returns (viaGetter: Result<Value, AccessError>, viaHandle: Result<Value, AccessError>)
    ensures viaGetter == Success(Str("Hello"))
    ensures viaHandle == Success(Str("Hello"))
  {
    var nameDescriptor := Descriptor("name", Some(ReadOp("java.lang.String", ReturnsField("internalName"))),
                                     Some(WriteOp(["java.lang.String"], StoresField("internalName"))), false);
    var someBeanClass := BeanClass("SomeBean", map["name" := nameDescriptor], None, YieldsNull);
    var someBean := new BeanObject("SomeBean", map[]);
    var bean := new Bean.FromInstance(someBean, someBeanClass);
    var nameProp := bean.GetProperty("name");
    var written := nameProp.value.SetValue(Str("Hello"));
    assert someBean.fields == map["internalName" := Str("Hello")];
    viaGetter := ReadAccess(nameDescriptor, someBean.fields);
    var again := bean.GetProperty("name");
    viaHandle := again.value.GetValue();
  }

  /**
   * Typing a resolved property: the handle the wrapper hands out starts with
   * an empty type cache, so the first GetType computes the declared type and
   * a second call returns the same type from the cache.
   */
  method TypeOfResolvedProperty(beanClass: BeanClass, bean: BeanObject, name: string)
    returns (first: Result<TypeName, TypeError>, second: Result<TypeName, TypeError>)
    requires beanClass.WellFormed() && bean.className == beanClass.typeName
    requires name in beanClass.descriptors
    ensures first == DeclaredType(beanClass.descriptors[name])
    ensures second == first
  {
    var b := new Bean.FromInstance(bean, beanClass);
    var r := b.GetProperty(name);
    first := r.value.GetType();
    second := r.value.GetType();
  }
  /**
   * A wrapper made from a class reads, through the first handle it resolves,
   * the field values of the instance the default constructor makes.
   */
  method LazyTargetReadsDefaults(beanClass: BeanClass, name: string, field: string)
    returns (r: Result<Value, AccessError>)
    requires beanClass.WellFormed() && beanClass.defaultInstance.Some?
    requires name in beanClass.descriptors
    requires beanClass.descriptors[name].readOp.Some?
    requires beanClass.descriptors[name].readOp.value.onRead == ReturnsField(field)
    ensures r == Success(FieldValue(beanClass.defaultInstance.value, field))
  {
    var b := new Bean.FromClass(beanClass);
    var p := b.GetProperty(name);
    r := p.value.GetValue();
  }
  /**
   * The as-written lookup of a name the class has never reaches the
   * not-found path: on a wrapper bound to an instance it resolves to a
   * handle for that name, exactly as the corrected lookup does.
   */
  method KnownNameResolvesAsWritten(beanClass: BeanClass, bean: BeanObject, name: string)
    returns (asWritten: Result<Property, BeanError>, corrected: Result<Property, BeanError>)
    requires beanClass.WellFormed() && bean.className == beanClass.typeName
    requires name in beanClass.descriptors
    ensures asWritten.Success? && asWritten.value.GetName() == name
    ensures corrected == asWritten
  {
    var b := new Bean.FromInstance(bean, beanClass);
    asWritten := b.GetPropertyAsWritten(name);
    corrected := b.GetProperty(name);
  }
}
