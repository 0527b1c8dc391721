/**
  The small part of the Java runtime that the holders and accessors rely on:
  boxed values carrying their runtime class, `Class.cast`, the exceptions the
  code throws or catches, and an Android `Parcel` reduced to a queue of maps.
 */
module Java {

  type Int8 = x: int | -0x80 <= x < 0x80
  type Int16 = x: int | -0x8000 <= x < 0x8000
  type Int32 = x: int | -0x8000_0000 <= x < 0x8000_0000
  type Int64 = x: int | -0x8000_0000_0000_0000 <= x < 0x8000_0000_0000_0000

  /** Element type of a Java array. */
  datatype Component =
    | ShortElems | ByteElems | CharElems | BooleanElems | IntElems
    | LongElems | FloatElems | DoubleElems | StringElems | OtherElems

  /** Platform classes whose instances are stored but never inspected. */
  datatype RefClass = XmlParserObject | DrawableObject | InputStreamObject | OtherObject

  /**
    A Java reference as seen through `Object`: null, a boxed primitive, a
    String, an array or some other object. Floats and doubles are kept as
    their raw IEEE 754 bits (no arithmetic is done on them); arrays and
    platform objects are opaque handles.
   */
  datatype Value =
    | Null
    | ShortBox(s: Int16)
    | ByteBox(b: Int8)
    | CharBox(c: char)
    | BooleanBox(z: bool)
    | IntegerBox(i: Int32)
    | LongBox(l: Int64)
    | FloatBox(f: bv32)
    | DoubleBox(d: bv64)
    | Str(chars: string)
    | ArrayRef(component: Component, handle: nat)
    | ObjectRef(cls: RefClass, handle: nat)

  /** The runtime class of a non-null value. */
  datatype JClass =
    | ShortClass | ByteClass | CharacterClass | BooleanClass | IntegerClass
    | LongClass | FloatClass | DoubleClass | StringClass
    | ArrayClass(component: Component)
    | PlatformClass(cls: RefClass)

  function ClassOf(v: Value): JClass
    requires v != Null
  {
    match v
    case ShortBox(_) => ShortClass
    case ByteBox(_) => ByteClass
    case CharBox(_) => CharacterClass
    case BooleanBox(_) => BooleanClass
    case IntegerBox(_) => IntegerClass
    case LongBox(_) => LongClass
    case FloatBox(_) => FloatClass
    case DoubleBox(_) => DoubleClass
    case Str(_) => StringClass
    case ArrayRef(e, _) => ArrayClass(e)
    case ObjectRef(c, _) => PlatformClass(c)
  }

  /** `v instanceof Number`: the six numeric boxes (not Character, not Boolean, never null). */
  predicate IsNumber(v: Value) {
    v.ShortBox? || v.ByteBox? || v.IntegerBox? || v.LongBox? || v.FloatBox? || v.DoubleBox?
  }

  /** The boxes that extend `java.lang.Number`. */
  predicate IsNumberClass(cls: JClass) {
    cls in {ShortClass, ByteClass, IntegerClass, LongClass, FloatClass, DoubleClass}
  }

  /** `v instanceof Number` is a test of the runtime class; null is never an instance. */
  lemma NumberByClass(v: Value)
    ensures IsNumber(v) <==> v != Null && IsNumberClass(ClassOf(v))
  {
  }

  /**
    `cls.cast(v)` does not throw. Every class a getter casts to is final (the
    boxes, String) or an array of a final or primitive type, so an instance
    test is an exact class comparison; null casts to anything.
   */
  predicate CastSucceeds(v: Value, cls: JClass) {
    v == Null || ClassOf(v) == cls
  }

  /** The exceptions the modelled code throws, catches or lets through. */
  datatype Exception =
    | NullPointerException
    | StringIndexOutOfBoundsException
    /** unchecked: `Field.getInt` on a field that is not an int */
    | IllegalArgumentException
    | ClassNotFoundException(message: string)
    /** android.content.res.Resources.NotFoundException */
    | NotFoundException(message: string)
    /** the repository's own subclass of Resources.NotFoundException */
    | ResourceNotFoundException(message: string)

  /** How a Java call ends: with a value or with an exception. */
  datatype Outcome<+T> = Returns(value: T) | Throws(exception: Exception)

  datatype Option<T> = None | Some(value: T)

  /** `HashMap.get`: null for an absent key. */
  function Lookup(m: map<string, Value>, key: string): (v: Value)
    ensures key !in m ==> v == Null
    ensures key in m ==> v == m[key]
  {
    if key in m then m[key] else Null
  }

  /**
    An Android Parcel as the holders use it: `writeValue` appends a map at
    the end, `readValue` hands back the map under the cursor and advances it.
   */
  class Parcel {
    var items: seq<map<string, Value>>
    var position: nat

    constructor ()
      ensures items == [] && position == 0
    {
      items, position := [], 0;
    }

    method WriteValue(m: map<string, Value>)
      modifies this
      ensures items == old(items) + [m]
      ensures position == |items|
    {
      items := items + [m];
      position := |items|;
    }

    method SetDataPosition(pos: nat)
      modifies this
      ensures items == old(items) && position == pos
    {
      position := pos;
    }

    method ReadValue() returns (m: map<string, Value>)
      requires position < |items|
      modifies this
      ensures items == old(items)
      ensures m == items[old(position)] && position == old(position) + 1
    {
      m := items[position];
      position := position + 1;
    }
  }
}
