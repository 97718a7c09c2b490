/**
 * The property handle of the beans library: a handle binds one target object
 * to one property descriptor and reads, writes and types the property through
 * the descriptor's optional read and write operations, turning a missing
 * accessor and a failing invocation into two kinds of access error.
 *
 * Reflection is replaced by data: an accessor says what invoking it does
 * (return or store a named field of the target, or fail with a cause), and
 * the target is an object whose field map a successful write updates.
 */
module PropertyAccess {
  import opened Wrappers

  /** The canonical name of a Java class. */
  type TypeName = string

  /** A property value as the accessors see it; `Null` is Java's null. */
  datatype Value = Null | Str(s: string) | Int(i: int)

  /** Why a reflective invocation failed: the accessor threw, or it could not be invoked. */
  datatype Cause = InvocationTarget(thrown: string) | IllegalAccess(reason: string)

  /** What invoking a getter on the target does. */
  datatype ReadBehaviour = ReturnsField(field: string) | ReadThrows(cause: Cause)

  /** What invoking a setter on the target does. */
  datatype WriteBehaviour = StoresField(field: string) | WriteThrows(cause: Cause)

  /** A getter: its declared return type and what invoking it does. */
  datatype ReadOp = ReadOp(returnType: TypeName, onRead: ReadBehaviour)

  /** A setter: its declared parameter types and what invoking it does. */
  datatype WriteOp = WriteOp(parameterTypes: seq<TypeName>, onWrite: WriteBehaviour)

  /**
   * What introspection found for one property: its name, its optional getter
   * and setter, and whether it was classified as indexed.
   */
  datatype Descriptor = Descriptor(name: string, readOp: Option<ReadOp>, writeOp: Option<WriteOp>, indexed: bool)

  datatype AccessType = Read | Write

  /**
   * The property access error: which property, which kind of access, and the
   * underlying failure. No cause means the accessor does not exist.
   */
  datatype AccessError = AccessError(property: string, access: AccessType, cause: Option<Cause>)

  /**
   * Runtime failures of working out a property's type: no accessor at all
   * (a null dereference in the Java code), or a setter without a parameter
   * (an array index out of bounds there).
   */
  datatype TypeError = NoAccessor | NoSetterParameter

  /** A bean instance: its class and the current values of its fields. */
  class BeanObject {
    const className: TypeName
    var fields: map<string, Value>

    /** An instance of class `className` whose fields hold `fields`. */
    constructor (className: TypeName, fields: map<string, Value>)
      ensures this.className == className && this.fields == fields
    {
      this.className := className;
      this.fields := fields;
    }
  }

  /** The value of field `f`; a field never assigned holds null. */
  function FieldValue(fields: map<string, Value>, f: string): Value
  {
    if f in fields then fields[f] else Null
  }

  /**
   * Reading a property from a target whose fields are `fields`: no getter is a
   * causeless READ error, a failing getter a READ error wrapping the cause, and
   * otherwise the getter's result.
   */
  function ReadAccess(d: Descriptor, fields: map<string, Value>): (r: Result<Value, AccessError>)
    ensures r.Failure? ==> r.error.property == d.name && r.error.access == Read
    ensures (r.Failure? && r.error.cause.None?) <==> d.readOp.None?
    ensures r.Success? <==> d.readOp.Some? && d.readOp.value.onRead.ReturnsField?
    ensures r.Success? ==> r.value == FieldValue(fields, d.readOp.value.onRead.field)
    ensures d.readOp.Some? && d.readOp.value.onRead.ReadThrows? ==>
              r == Failure(AccessError(d.name, Read, Some(d.readOp.value.onRead.cause)))
  {
    match d.readOp
    case None => Failure(AccessError(d.name, Read, None))
    case Some(op) =>
      match op.onRead
      case ReturnsField(f) => Success(FieldValue(fields, f))
      case ReadThrows(c) => Failure(AccessError(d.name, Read, Some(c)))
  }

  /**
   * Writing `v` to a property of a target whose fields are `fields`: no setter
   * is a causeless WRITE error, a failing setter a WRITE error wrapping the
   * cause, and otherwise the target's new fields.
   */
  function WriteAccess(d: Descriptor, fields: map<string, Value>, v: Value): (r: Result<map<string, Value>, AccessError>)
    ensures r.Failure? ==> r.error.property == d.name && r.error.access == Write
    ensures (r.Failure? && r.error.cause.None?) <==> d.writeOp.None?
    ensures r.Success? <==> d.writeOp.Some? && d.writeOp.value.onWrite.StoresField?
    ensures d.writeOp.Some? && d.writeOp.value.onWrite.WriteThrows? ==>
              r == Failure(AccessError(d.name, Write, Some(d.writeOp.value.onWrite.cause)))
    ensures r.Success? ==>
              var f := d.writeOp.value.onWrite.field;
              && FieldValue(r.value, f) == v
              && forall g :: g != f ==> FieldValue(r.value, g) == FieldValue(fields, g)
  {
    match d.writeOp
    case None => Failure(AccessError(d.name, Write, None))
    case Some(op) =>
      match op.onWrite
      case StoresField(f) => Success(fields[f := v])
      case WriteThrows(c) => Failure(AccessError(d.name, Write, Some(c)))
  }

  /**
   * The declared type of a property: the getter's return type when there is a
   * getter, else the type of the setter's first parameter.
   */
  function DeclaredType(d: Descriptor): (r: Result<TypeName, TypeError>)
    ensures d.readOp.Some? ==> r == Success(d.readOp.value.returnType)
    ensures d.readOp.None? && d.writeOp.Some? && |d.writeOp.value.parameterTypes| > 0 ==>
              r == Success(d.writeOp.value.parameterTypes[0])
    ensures r.Failure? <==> d.readOp.None? && (d.writeOp.None? || |d.writeOp.value.parameterTypes| == 0)
  {
    match d.readOp
    case Some(getter) => Success(getter.returnType)
    case None =>
      match d.writeOp
      case None => Failure(NoAccessor)
      case Some(setter) =>
        if |setter.parameterTypes| == 0 then Failure(NoSetterParameter)
        else Success(setter.parameterTypes[0])
  }

  /** A getter and a setter that return and store the same field of the target. */
  predicate SharesBackingField(d: Descriptor)
  {
    && d.readOp.Some? && d.readOp.value.onRead.ReturnsField?
    && d.writeOp.Some? && d.writeOp.value.onWrite.StoresField?
    && d.readOp.value.onRead.field == d.writeOp.value.onWrite.field
  }

  /** Writing through such a property and reading it back yields the written value. */
  lemma WriteThenRead(d: Descriptor, fields: map<string, Value>, v: Value)
    requires SharesBackingField(d)
    ensures WriteAccess(d, fields, v).Success?
    ensures ReadAccess(d, WriteAccess(d, fields, v).value) == Success(v)
  {
  }

  /**
   * A successful write leaves every property backed by another field reading
   * exactly as before.
   */
  lemma WriteLeavesOtherPropertiesAlone(d: Descriptor, other: Descriptor, fields: map<string, Value>, v: Value)
    requires WriteAccess(d, fields, v).Success?
    requires other.readOp.Some? && other.readOp.value.onRead.ReturnsField?
    requires other.readOp.value.onRead.field != d.writeOp.value.onWrite.field
    ensures ReadAccess(other, WriteAccess(d, fields, v).value) == ReadAccess(other, fields)
  {
  }

  /**
   * A property handle: a target object and a descriptor, bound for good, plus
   * the lazily computed declared type. `indexed` tells a handle built as an
   * indexed property from a plain one.
   */
  class Property {
    const bean: BeanObject
    const descriptor: Descriptor
    const indexed: bool
    var typeCache: Option<TypeName>

    /** A cached type is the one the descriptor declares. */
    ghost predicate Valid()
      reads this
    {
      typeCache.Some? ==> DeclaredType(descriptor) == Success(typeCache.value)
    }

    /** A plain handle; the type is not computed yet. */
    constructor (bean: BeanObject, descriptor: Descriptor)
      ensures this.bean == bean && this.descriptor == descriptor
      ensures !indexed && typeCache == None && Valid()
    {
      this.bean := bean;
      this.descriptor := descriptor;
      this.indexed := false;
      this.typeCache := None;
    }

    /** A handle for an indexed property, which only an indexed descriptor can make. */
    constructor Indexed(bean: BeanObject, descriptor: Descriptor)
      requires descriptor.indexed
      ensures this.bean == bean && this.descriptor == descriptor
      ensures indexed && typeCache == None && Valid()
    {
      this.bean := bean;
      this.descriptor := descriptor;
      this.indexed := true;
      this.typeCache := None;
    }

    /**
     * The declared type, computed on the first successful call and cached:
     * a later call returns the cached type and changes nothing. A failed
     * computation leaves the cache empty.
     */
    method GetType() returns (r: Result<TypeName, TypeError>)
      requires Valid()
      modifies this`typeCache
      ensures Valid()
      ensures r == DeclaredType(descriptor)
      ensures old(typeCache).Some? ==> r == Success(old(typeCache).value) && typeCache == old(typeCache)
      ensures typeCache == if r.Success? then Some(r.value) else None
    {
      if typeCache.None? {
        var computed := DeclaredType(descriptor);
        if computed.Failure? {
          return computed;
        }
        typeCache := Some(computed.value);
      }
      r := Success(typeCache.value);
    }

    /**
     * The property's name: the descriptor's name, which is also the name every
     * access error of this handle reports.
     */
    function GetName(): (n: string)
      ensures n == descriptor.name
      ensures forall fields :: ReadAccess(descriptor, fields).Failure? ==> ReadAccess(descriptor, fields).error.property == n
    {
      descriptor.name
    }

    /**
     * Reads the property from the bound target: a READ error of this property,
     * without a cause exactly when the handle is not readable, or the value
     * of the field the getter returns.
     */
    function GetValue(): (r: Result<Value, AccessError>)
      reads bean
      ensures r.Failure? ==> r.error.property == GetName() && r.error.access == Read
      ensures (r.Failure? && r.error.cause.None?) <==> !IsReadable()
      ensures r.Success? <==> descriptor.readOp.Some? && descriptor.readOp.value.onRead.ReturnsField?
      ensures r.Success? ==> r.value == FieldValue(bean.fields, descriptor.readOp.value.onRead.field)
    {
      ReadAccess(descriptor, bean.fields)
    }

    /**
     * Writes `v` through the setter: on success the target's fields become
     * those WriteAccess computes, on any error the target is left as it was.
     */
    method SetValue(v: Value) returns (r: Outcome<AccessError>)
      modifies bean
      ensures var w := WriteAccess(descriptor, old(bean.fields), v);
              if w.Success? then r == Pass && bean.fields == w.value
              else r == Fail(w.error) && bean.fields == old(bean.fields)
    {
      var written := WriteAccess(descriptor, bean.fields, v);
      match written
      case Success(after) =>
        bean.fields := after;
        r := Pass;
      case Failure(e) =>
        r := Fail(e);
    }

    /**
     * True iff the property has a getter, that is, iff reading it never fails
     * without a cause, whatever the target's fields.
     */
    predicate IsReadable(): (b: bool)
      ensures b <==> descriptor.readOp.Some?
      ensures forall fields :: (ReadAccess(descriptor, fields).Failure? && ReadAccess(descriptor, fields).error.cause.None?) <==> !b
    {
      descriptor.readOp.Some?
    }

    /**
     * True iff the property has a setter, that is, iff writing it never fails
     * without a cause, whatever the target's fields and the value.
     */
    predicate IsWritable(): (b: bool)
      ensures b <==> descriptor.writeOp.Some?
      ensures forall fields, v :: (WriteAccess(descriptor, fields, v).Failure? && WriteAccess(descriptor, fields, v).error.cause.None?) <==> !b
    {
      descriptor.writeOp.Some?
    }

    /** The diagnostic rendering of the handle: its name and nothing else. */
    function ToString(): (s: string)
      ensures s == GetName() == descriptor.name
    {
      GetName()
    }

    /**
     * The formatted rendering `<owner class>.<property name>`: the canonical
     * name of the target's class, a dot, then the handle's name.
     */
    function FormatTo(): (s: string)
      ensures |s| == |bean.className| + 1 + |GetName()|
      ensures s[..|bean.className|] == bean.className
      ensures s[|bean.className|] == '.'
      ensures s[|bean.className| + 1..] == GetName() == ToString()
    {
      bean.className + "." + GetName()
    }
  }
}
