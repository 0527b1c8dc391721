/**
  The resources-helper `ResourcesHolder`: one hash map from String keys to
  arbitrary objects, filled through overloaded `put`s and read back through
  typed `getAs*` readers that fall back to a default when the stored object
  is of another class.
 */
module TypedHolder {
  import opened Java

  /**
    The first test of `isCompatibleCast`: `mValues.get(key) instanceof Number
    && obj == null`, where `obj` came from the same `get`. A Number is never
    null, so with both reads of one map the guard cannot fire.
   */
  function NullNumberGuard(current: Value, obj: Value): (fires: bool)
    ensures current == obj ==> !fires
  {
    IsNumber(current) && obj == Null
  }

  /**
    The guard as its log message ("Cannot cast null value to a ... number
    format") describes it: a null read through one of the number classes.
   */
  function IntendedNullNumberGuard(obj: Value, cls: JClass): (fires: bool)
    ensures fires <==> obj == Null && IsNumberClass(cls)
  {
    IsNumberClass(cls) && obj == Null
  }

  /** The default a number reader falls back to: zero of the requested box. */
  function ZeroOf(cls: JClass): (v: Value)
    requires IsNumberClass(cls)
    ensures v != Null && ClassOf(v) == cls
  {
    match cls
    case ShortClass => ShortBox(0)
    case ByteClass => ByteBox(0)
    case IntegerClass => IntegerBox(0)
    case LongClass => LongBox(0)
    case FloatClass => FloatBox(0)
    case DoubleClass => DoubleBox(0)
  }

  class ResourcesHolder {
    /** `mValues`; a key may be present with a null value (`put(k, (String) null)`). */
    var values: map<string, Value>

    constructor ()
      ensures values == map[]
    {
      values := map[];
    }

    /**
      All ten `put` overloads. Java's overload resolution boxes the argument
      (short into Short, int into Integer, ...) and every overload then does
      the same `mValues.put(key, value)`; `value` is that boxed argument.
     */
    method Put(key: string, value: Value) returns (self: ResourcesHolder)
      modifies this
      ensures self == this
      ensures values == old(values)[key := value]
      ensures ContainsKey(key) && GetAsObject(key) == value
      ensures forall k :: k != key ==> (ContainsKey(k) <==> old(ContainsKey(k))) && GetAsObject(k) == old(GetAsObject(k))
      ensures Size() == if old(ContainsKey(key)) then old(Size()) else old(Size()) + 1
    {
      values := values[key := value];
      self := this;
    }

    /** `getAsObject`: the stored object, null when the key is absent. */
    function GetAsObject(key: string): (v: Value)
      reads this
      ensures key !in values ==> v == Null
      ensures key in values ==> v == values[key]
    {
      Lookup(values, key)
    }

    /**
      `isCompatibleCast`: the guard that rejects a null Number can never fire
      (null is not a Number), so the check passes exactly when the stored
      object is null (or absent) or of the requested class.
     */
    function IsCompatibleCast(key: string, cls: JClass): (ok: bool)
      reads this
      ensures ok <==> (key !in values || values[key] == Null || ClassOf(values[key]) == cls)
    {
      var obj := Lookup(values, key);
      // the guard's `return false`, then `classToCast.cast(obj)`
      !NullNumberGuard(Lookup(values, key), obj) && CastSucceeds(obj, cls)
    }

    /** `isCompatibleCast` with the null guard testing the requested class, as intended. */
    function IntendedIsCompatibleCast(key: string, cls: JClass): (ok: bool)
      reads this
      ensures ok <==> ((GetAsObject(key) == Null ==> !IsNumberClass(cls))
        && (GetAsObject(key) != Null ==> ClassOf(GetAsObject(key)) == cls))
    {
      var obj := Lookup(values, key);
      !IntendedNullNumberGuard(obj, cls) && CastSucceeds(obj, cls)
    }

    /**
      The six number readers with the intended guard: they never fail, and
      answer the stored number of the requested class or else zero.
     */
    function IntendedGetAsNumber(key: string, cls: JClass): (v: Value)
      requires IsNumberClass(cls)
      reads this
      ensures v != Null && ClassOf(v) == cls
      ensures GetAsObject(key) != Null && ClassOf(GetAsObject(key)) == cls ==> v == GetAsObject(key)
      ensures !(GetAsObject(key) != Null && ClassOf(GetAsObject(key)) == cls) ==> v == ZeroOf(cls)
    {
      if IntendedIsCompatibleCast(key, cls) then Lookup(values, key) else ZeroOf(cls)
    }

    function GetAsShort(key: string): (r: Outcome<Int16>)
      reads this
      ensures GetAsObject(key).ShortBox? ==> r == Returns(GetAsObject(key).s)
      ensures GetAsObject(key) == Null ==> r == Throws(NullPointerException)
      ensures GetAsObject(key) != Null && !GetAsObject(key).ShortBox? ==> r == Returns(0)
    {
      if IsCompatibleCast(key, ShortClass) then
        (match Lookup(values, key) case ShortBox(s) => Returns(s) case _ => Throws(NullPointerException))
      else Returns(0)
    }

    function GetAsByte(key: string): (r: Outcome<Int8>)
      reads this
      ensures GetAsObject(key).ByteBox? ==> r == Returns(GetAsObject(key).b)
      ensures GetAsObject(key) == Null ==> r == Throws(NullPointerException)
      ensures GetAsObject(key) != Null && !GetAsObject(key).ByteBox? ==> r == Returns(0)
    {
      if IsCompatibleCast(key, ByteClass) then
        (match Lookup(values, key) case ByteBox(b) => Returns(b) case _ => Throws(NullPointerException))
      else Returns(0)
    }

    function GetAsChar(key: string): (r: Outcome<char>)
      reads this
      ensures GetAsObject(key).CharBox? ==> r == Returns(GetAsObject(key).c)
      ensures GetAsObject(key) == Null ==> r == Throws(NullPointerException)
      ensures GetAsObject(key) != Null && !GetAsObject(key).CharBox? ==> r == Returns('\0')
    {
      if IsCompatibleCast(key, CharacterClass) then
        (match Lookup(values, key) case CharBox(c) => Returns(c) case _ => Throws(NullPointerException))
      else Returns('\0')
    }

    /** `isCompatibleCast(...) && (boolean) get(key)`: the unboxing runs only when the check passed. */
    function GetAsBoolean(key: string): (r: Outcome<bool>)
      reads this
      ensures GetAsObject(key).BooleanBox? ==> r == Returns(GetAsObject(key).z)
      ensures GetAsObject(key) == Null ==> r == Throws(NullPointerException)
      ensures GetAsObject(key) != Null && !GetAsObject(key).BooleanBox? ==> r == Returns(false)
    {
      if !IsCompatibleCast(key, BooleanClass) then Returns(false)
      else match Lookup(values, key) case BooleanBox(z) => Returns(z) case _ => Throws(NullPointerException)
    }

    function GetAsInteger(key: string): (r: Outcome<Int32>)
      reads this
      ensures GetAsObject(key).IntegerBox? ==> r == Returns(GetAsObject(key).i)
      ensures GetAsObject(key) == Null ==> r == Throws(NullPointerException)
      ensures GetAsObject(key) != Null && !GetAsObject(key).IntegerBox? ==> r == Returns(0)
    {
      if IsCompatibleCast(key, IntegerClass) then
        (match Lookup(values, key) case IntegerBox(i) => Returns(i) case _ => Throws(NullPointerException))
      else Returns(0)
    }

    function GetAsLong(key: string): (r: Outcome<Int64>)
      reads this
      ensures GetAsObject(key).LongBox? ==> r == Returns(GetAsObject(key).l)
      ensures GetAsObject(key) == Null ==> r == Throws(NullPointerException)
      ensures GetAsObject(key) != Null && !GetAsObject(key).LongBox? ==> r == Returns(0)
    {
      if IsCompatibleCast(key, LongClass) then
        (match Lookup(values, key) case LongBox(l) => Returns(l) case _ => Throws(NullPointerException))
      else Returns(0)
    }

    /** The default `0` converts to the float +0.0, whose bits are all zero. */
    function GetAsFloat(key: string): (r: Outcome<bv32>)
      reads this
      ensures GetAsObject(key).FloatBox? ==> r == Returns(GetAsObject(key).f)
      ensures GetAsObject(key) == Null ==> r == Throws(NullPointerException)
      ensures GetAsObject(key) != Null && !GetAsObject(key).FloatBox? ==> r == Returns(0)
    {
      if IsCompatibleCast(key, FloatClass) then
        (match Lookup(values, key) case FloatBox(f) => Returns(f) case _ => Throws(NullPointerException))
      else Returns(0)
    }

    function GetAsDouble(key: string): (r: Outcome<bv64>)
      reads this
      ensures GetAsObject(key).DoubleBox? ==> r == Returns(GetAsObject(key).d)
      ensures GetAsObject(key) == Null ==> r == Throws(NullPointerException)
      ensures GetAsObject(key) != Null && !GetAsObject(key).DoubleBox? ==> r == Returns(0)
    {
      if IsCompatibleCast(key, DoubleClass) then
        (match Lookup(values, key) case DoubleBox(d) => Returns(d) case _ => Throws(NullPointerException))
      else Returns(0)
    }

    /** `getAsString`: a String is returned, anything else (and absence) reads as null. */
    function GetAsString(key: string): (r: Value)
      reads this
      ensures r == Null || r.Str?
      ensures GetAsObject(key).Str? ==> r == GetAsObject(key)
      ensures !GetAsObject(key).Str? ==> r == Null
    {
      if IsCompatibleCast(key, StringClass) then Lookup(values, key) else Null
    }

    /**
      The nine array readers `getAsShortArray` ... `getAsStringArray`, one per
      element type: an array of exactly that element type is returned,
      anything else (and absence) reads as null.
     */
    function GetAsArray(key: string, component: Component): (r: Value)
      requires component != OtherElems
      reads this
      ensures r == Null || (r.ArrayRef? && r.component == component)
      ensures GetAsObject(key).ArrayRef? && GetAsObject(key).component == component ==> r == GetAsObject(key)
      ensures !(GetAsObject(key).ArrayRef? && GetAsObject(key).component == component) ==> r == Null
    {
      if IsCompatibleCast(key, ArrayClass(component)) then Lookup(values, key) else Null
    }

    method Clear()
      modifies this
      ensures values == map[]
      ensures Size() == 0 && forall k :: !ContainsKey(k)
    {
      values := map[];
    }

    function Size(): (n: nat)
      reads this
      ensures n == |values.Keys|
    {
      |values|
    }

    predicate ContainsKey(key: string)
      reads this
      ensures ContainsKey(key) <==> key in values.Keys
    {
      key in values
    }

    /** `remove`: drops `key` (a no-op when it is absent) and nothing else. */
    method Remove(key: string)
      modifies this
      ensures values == old(values) - {key}
      ensures !ContainsKey(key)
      ensures forall k :: k != key ==> (ContainsKey(k) <==> old(ContainsKey(k))) && GetAsObject(k) == old(GetAsObject(k))
      ensures !old(ContainsKey(key)) ==> values == old(values)
      ensures Size() == if old(ContainsKey(key)) then old(Size()) - 1 else old(Size())
    {
      values := values - {key};
    }

    /**
      `sort`: copies the entries into a TreeMap, calls `descendingMap()` when
      asked (its result, a reversed view, is dropped), then clears the hash
      map and puts every entry back. A hash map has no order to change.
     */
    method Sort(descending: bool)
      modifies this
      ensures values == old(values)
      ensures Size() == old(Size())
    {
      var treeMap := values;
      if descending {
        var reversedView := treeMap;
      }
      values := map[];
      values := values + treeMap;
    }

    function KeySet(): (keys: set<string>)
      reads this
      ensures forall k :: k in keys <==> ContainsKey(k)
    {
      values.Keys
    }

    /** `valueSet`: the entry set. */
    function ValueSet(): (entries: set<(string, Value)>)
      reads this
      ensures forall e :: e in entries <==> e.0 in values && values[e.0] == e.1
    {
      set k | k in values :: (k, values[k])
    }

    /** `writeToParcel`: the whole map goes in as one value. */
    method WriteToParcel(dest: Parcel)
      modifies dest
      ensures dest.items == old(dest.items) + [values]
    {
      dest.WriteValue(values);
    }

    /** The `Parcel` constructor used by `CREATOR`: reads the one map back. */
    constructor FromParcel(source: Parcel)
      requires source.position < |source.items|
      modifies source
      ensures values == old(source.items[source.position])
      ensures source.items == old(source.items) && source.position == old(source.position) + 1
    {
      var m := source.ReadValue();
      values := m;
    }
  }

  /**
    The guard at the head of `isCompatibleCast` tests the value it has just
    read for null, so it never fires: reading an absent key through
    `getAsInteger` throws where the intended guard answers 0.
   */
  lemma AbsentNumberCounterexample(h: ResourcesHolder, key: string)
    requires key !in h.values
    ensures !NullNumberGuard(h.GetAsObject(key), h.GetAsObject(key))
    ensures h.GetAsInteger(key) == Throws(NullPointerException)
    ensures IntendedNullNumberGuard(h.GetAsObject(key), IntegerClass)
    ensures h.IntendedGetAsNumber(key, IntegerClass) == IntegerBox(0)
  {
  }

  /** Writing a holder to a parcel and reading it back yields the same mapping. */
  method ParcelRoundTrip(holder: ResourcesHolder) returns (copy: ResourcesHolder)
    ensures fresh(copy) && copy.values == holder.values
  {
    var parcel := new Parcel();
    holder.WriteToParcel(parcel);
    parcel.SetDataPosition(0);
    copy := new ResourcesHolder.FromParcel(parcel);
  }
}
