/**
  The internal-accessor `ResourcesHolder`: ten hash maps, one per Java type
  of value. Several resource kinds share a map (ids, colors and ints all go
  into `ints`), so the kinds that share one are kept apart by a prefix on
  the key ("id_", "color_", "int_", ...). Kinds that own their map store the
  key as given.

  The first half is a value-level description of the ten maps (`Maps`,
  `Put`, `Get`), driven by the kind-to-map and kind-to-prefix tables; the
  class below it updates its ten fields in place and is proved to follow
  that description.
 */
module PrefixedHolder {
  import opened Java
  import opened JavaString

  /** The ten maps, in field declaration order. */
  datatype Store =
    | Ints | Xpps | ArrayInts | ArrayStrings | Bools
    | Drawables | Floats | Streams | Strings | Objects

  /** The eighteen `put*`/`get*` pairs. */
  datatype Kind =
    | ResourceId | Anim | IntArray | StringArray | Boolean | Color
    | Dimension | Drawable | Float | Fraction | Int | Layout
    | Menu | Mipmap | Raw | String | Xml | Object

  function StoreOf(k: Kind): Store {
    match k
    case ResourceId | Color | Int => Ints
    case Anim | Layout | Menu | Xml => Xpps
    case IntArray => ArrayInts
    case StringArray => ArrayStrings
    case Boolean => Bools
    case Drawable | Mipmap => Drawables
    case Dimension | Float | Fraction => Floats
    case Raw => Streams
    case String => Strings
    case Object => Objects
  }

  /** The name a prefixed kind is filed under; empty for kinds stored under the bare key. */
  function Tag(k: Kind): (t: string)
    ensures '_' !in t
  {
    match k
    case ResourceId => "id"
    case Color => "color"
    case Int => "int"
    case Anim => "anim"
    case Layout => "layout"
    case Menu => "menu"
    case Xml => "xml"
    case Drawable => "drawable"
    case Mipmap => "mipmap"
    case Dimension => "dimen"
    case Float => "float"
    case Fraction => "fraction"
    case _ => ""
  }

  predicate Prefixed(k: Kind) {
    Tag(k) != ""
  }

  /** A kind that shares its map with another kind is exactly a prefixed one. */
  lemma SharedStoresArePrefixed(k1: Kind, k2: Kind)
    requires k1 != k2 && StoreOf(k1) == StoreOf(k2)
    ensures Prefixed(k1) && Prefixed(k2)
  {
  }

  /** The literal each `put*`/`get*` pair glues in front of the key. */
  function Prefix(k: Kind): (p: string)
    ensures Prefixed(k) ==> p == Tag(k) + "_"
    ensures !Prefixed(k) ==> p == ""
  {
    match k
    case ResourceId => "id_"
    case Color => "color_"
    case Int => "int_"
    case Anim => "anim_"
    case Layout => "layout_"
    case Menu => "menu_"
    case Xml => "xml_"
    case Drawable => "drawable_"
    case Mipmap => "mipmap_"
    case Dimension => "dimen_"
    case Float => "float_"
    case Fraction => "fraction_"
    case _ => ""
  }

  /** The key a `put`/`get` of kind `k` uses in its map. */
  function StoredKey(k: Kind, key: string): (s: string)
    ensures s == Prefix(k) + key
    ensures !Prefixed(k) ==> s == key
  {
    Prefix(k) + key
  }

  // ---------------------------------------------------------------- values

  /**
    The stored key when the caller's key may be null (`None`): Java renders
    a null operand of `+` as "null", while an unprefixed kind keeps the null
    key itself.
   */
  function NullableStoredKey(k: Kind, key: Option<string>): (s: Option<string>)
    ensures key.Some? ==> s == Some(StoredKey(k, key.value))
    ensures key.None? && Prefixed(k) ==> s == Some(StoredKey(k, "null"))
    ensures key.None? && !Prefixed(k) ==> s.None?
  {
    match key
    case Some(text) => Some(StoredKey(k, text))
    case None => if Prefixed(k) then Some(Prefix(k) + "null") else None
  }

  /**
    For a prefixed kind, a null key and the key "null" land on one entry,
    so `StoredKeyInjective` holds only for keys that are not null.
   */
  lemma NullKeyCollides(k: Kind)
    requires Prefixed(k)
    ensures NullableStoredKey(k, None) == NullableStoredKey(k, Some("null"))
  {
  }

  predicate IsRefTo(v: Value, cls: RefClass) {
    v == Null || (v.ObjectRef? && v.cls == cls)
  }

  predicate IsArrayOf(v: Value, e: Component) {
    v == Null || (v.ArrayRef? && v.component == e)
  }

  predicate IsString(v: Value) {
    v == Null || v.Str?
  }

  /** Parameter types of the reference-typed `put*` methods. */
  type XmlParser = v: Value | IsRefTo(v, XmlParserObject) witness Null
  type DrawableRef = v: Value | IsRefTo(v, DrawableObject) witness Null
  type InputStreamRef = v: Value | IsRefTo(v, InputStreamObject) witness Null
  type IntArrayRef = v: Value | IsArrayOf(v, IntElems) witness Null
  type StringArrayRef = v: Value | IsArrayOf(v, StringElems) witness Null
  type JString = v: Value | IsString(v) witness Null

  /**
    What each map's declared value type admits. The maps of primitive
    wrappers are only filled from primitive parameters, so they never hold
    null.
   */
  predicate StoreFits(st: Store, v: Value) {
    match st
    case Ints => v.IntegerBox?
    case Xpps => IsRefTo(v, XmlParserObject)
    case ArrayInts => IsArrayOf(v, IntElems)
    case ArrayStrings => IsArrayOf(v, StringElems)
    case Bools => v.BooleanBox?
    case Drawables => IsRefTo(v, DrawableObject)
    case Floats => v.FloatBox?
    case Streams => IsRefTo(v, InputStreamObject)
    case Strings => IsString(v)
    case Objects => true
  }

  /** A value the `put*` of kind `k` accepts, after boxing. */
  predicate Fits(k: Kind, v: Value) {
    StoreFits(StoreOf(k), v)
  }

  /** The getters whose declared result is a primitive: they unbox what `HashMap.get` returned. */
  predicate Unboxes(k: Kind) {
    k in {ResourceId, Boolean, Color, Dimension, Float, Fraction, Int}
  }

  /** Exactly the kinds whose map holds primitive wrappers unbox on the way out. */
  lemma UnboxingKindsRejectNull(k: Kind)
    ensures Unboxes(k) <==> !Fits(k, Null)
  {
  }

  // ------------------------------------------------------------- the maps

  datatype Maps = Maps(
    ints: map<string, Value>,
    xpps: map<string, Value>,
    arrayInt: map<string, Value>,
    arrayString: map<string, Value>,
    bools: map<string, Value>,
    drawables: map<string, Value>,
    floats: map<string, Value>,
    streams: map<string, Value>,
    strings: map<string, Value>,
    objects: map<string, Value>)

  function Empty(): (s: Maps)
    ensures forall st :: Select(s, st) == map[]
  {
    Maps(map[], map[], map[], map[], map[], map[], map[], map[], map[], map[])
  }

  function Select(s: Maps, st: Store): map<string, Value> {
    match st
    case Ints => s.ints
    case Xpps => s.xpps
    case ArrayInts => s.arrayInt
    case ArrayStrings => s.arrayString
    case Bools => s.bools
    case Drawables => s.drawables
    case Floats => s.floats
    case Streams => s.streams
    case Strings => s.strings
    case Objects => s.objects
  }

  /** `put<Kind>(key, v)`: one entry of one map is set, every other map is untouched. */
  function Put(s: Maps, k: Kind, key: string, v: Value): (r: Maps)
    ensures Select(r, StoreOf(k)) == Select(s, StoreOf(k))[StoredKey(k, key) := v]
    ensures forall st :: st != StoreOf(k) ==> Select(r, st) == Select(s, st)
  {
    var sk := StoredKey(k, key);
    match StoreOf(k)
    case Ints => s.(ints := s.ints[sk := v])
    case Xpps => s.(xpps := s.xpps[sk := v])
    case ArrayInts => s.(arrayInt := s.arrayInt[sk := v])
    case ArrayStrings => s.(arrayString := s.arrayString[sk := v])
    case Bools => s.(bools := s.bools[sk := v])
    case Drawables => s.(drawables := s.drawables[sk := v])
    case Floats => s.(floats := s.floats[sk := v])
    case Streams => s.(streams := s.streams[sk := v])
    case Strings => s.(strings := s.strings[sk := v])
    case Objects => s.(objects := s.objects[sk := v])
  }

  /**
    `get<Kind>(key)`: what `HashMap.get` returns for the stored key (null
    when absent); the primitive getters throw on null while unboxing.
   */
  function Get(s: Maps, k: Kind, key: string): (r: Outcome<Value>)
    ensures r.Throws? <==> Unboxes(k) && Lookup(Select(s, StoreOf(k)), StoredKey(k, key)) == Null
    ensures r.Throws? ==> r.exception == NullPointerException
    ensures r.Returns? && StoredKey(k, key) in Select(s, StoreOf(k)) ==> r.value == Select(s, StoreOf(k))[StoredKey(k, key)]
    ensures r.Returns? && StoredKey(k, key) !in Select(s, StoreOf(k)) ==> r.value == Null
  {
    var v := Lookup(Select(s, StoreOf(k)), StoredKey(k, key));
    if Unboxes(k) && v == Null then Throws(NullPointerException) else Returns(v)
  }

  /** Every map holds only values of its declared type. */
  predicate WellTyped(s: Maps) {
    forall st, key :: key in Select(s, st) ==> StoreFits(st, Select(s, st)[key])
  }

  // ---------------------------------------------------- keys never collide

  lemma DistinctAt(p: string, q: string, a: string, b: string, j: nat)
    requires j < |p| && j < |q| && p[j] != q[j]
    ensures p + a != q + b
  {
    assert (p + a)[j] == p[j];
    assert (q + b)[j] == q[j];
  }

  /** Two different kinds sharing a map never produce the same stored key. */
  lemma {:induction false} PrefixesSeparate(k1: Kind, k2: Kind, a: string, b: string)
    requires k1 != k2 && StoreOf(k1) == StoreOf(k2)
    ensures StoredKey(k1, a) != StoredKey(k2, b)
  {
    var p, q := Prefix(k1), Prefix(k2);
    if p[0] != q[0] {
      DistinctAt(p, q, a, b, 0);
    } else {
      DistinctAt(p, q, a, b, 1);
    }
  }

  /** Within one kind the prefix is cancellable: different keys stay different. */
  lemma {:induction false} StoredKeyInjective(k: Kind, a: string, b: string)
    requires StoredKey(k, a) == StoredKey(k, b)
    ensures a == b
  {
    var p := Prefix(k);
    assert (p + a)[|p|..] == a;
    assert (p + b)[|p|..] == b;
  }

  /** Two different (kind, key) pairs of one map never share a stored key. */
  lemma {:induction false} StoredKeysDiffer(k: Kind, key: string, k2: Kind, key2: string)
    requires (k2 != k || key2 != key) && StoreOf(k2) == StoreOf(k)
    ensures StoredKey(k2, key2) != StoredKey(k, key)
  {
    if k2 != k {
      PrefixesSeparate(k2, k, key2, key);
    } else if StoredKey(k2, key2) == StoredKey(k, key) {
      StoredKeyInjective(k, key2, key);
    }
  }

  /** The entry a `get` reads is the only thing it depends on. */
  lemma GetReadsOneEntry(s1: Maps, s2: Maps, k: Kind, key: string)
    requires Lookup(Select(s1, StoreOf(k)), StoredKey(k, key)) == Lookup(Select(s2, StoreOf(k)), StoredKey(k, key))
    ensures Get(s1, k, key) == Get(s2, k, key)
  {
  }

  /** A `put` changes one entry of one map. */
  lemma {:induction false} PutTouchesOneEntry(s: Maps, k: Kind, key: string, v: Value, k2: Kind, key2: string)
    requires k2 != k || key2 != key
    ensures Lookup(Select(Put(s, k, key, v), StoreOf(k2)), StoredKey(k2, key2)) == Lookup(Select(s, StoreOf(k2)), StoredKey(k2, key2))
  {
    if StoreOf(k2) == StoreOf(k) {
      StoredKeysDiffer(k, key, k2, key2);
    }
  }

  /** A `put` leaves every other (kind, key) pair reading as before. */
  lemma {:induction false} PutIsolated(s: Maps, k: Kind, key: string, v: Value, k2: Kind, key2: string)
    requires k2 != k || key2 != key
    ensures Get(Put(s, k, key, v), k2, key2) == Get(s, k2, key2)
  {
    PutTouchesOneEntry(s, k, key, v, k2, key2);
    GetReadsOneEntry(Put(s, k, key, v), s, k2, key2);
  }

  /** A `get` right after a `put` of the same kind and key returns what was put. */
  lemma GetAfterPut(s: Maps, k: Kind, key: string, v: Value)
    requires Fits(k, v)
    ensures Get(Put(s, k, key, v), k, key) == Returns(v)
  {
  }

  /** After `clear`, the primitive getters throw and the others read null. */
  lemma GetAfterClear(k: Kind, key: string)
    ensures Get(Empty(), k, key) == if Unboxes(k) then Throws(NullPointerException) else Returns(Null)
  {
  }

  /** Typed `put`s keep every map well typed. */
  lemma PutKeepsTyped(s: Maps, k: Kind, key: string, v: Value)
    requires WellTyped(s) && Fits(k, v)
    ensures WellTyped(Put(s, k, key, v))
  {
    var r := Put(s, k, key, v);
    forall st, x | x in Select(r, st)
      ensures StoreFits(st, Select(r, st)[x])
    {
      if st != StoreOf(k) {
        assert Select(r, st) == Select(s, st);
      }
    }
  }

  /** In a well-typed holder, a getter that returns yields a value of its kind. */
  lemma GetYieldsKind(s: Maps, k: Kind, key: string)
    requires WellTyped(s)
    ensures Get(s, k, key).Returns? ==> Fits(k, Get(s, k, key).value)
  {
    if StoredKey(k, key) in Select(s, StoreOf(k)) {
      assert StoreFits(StoreOf(k), Select(s, StoreOf(k))[StoredKey(k, key)]);
    }
  }

  // ----------------------------------------------------- printAll's keys

  /** `getPre`: the text before the first '_', which must exist. */
  function GetPre(key: string): (r: Outcome<string>)
    ensures '_' !in key ==> r == Throws(StringIndexOutOfBoundsException)
    ensures '_' in key ==> r.Returns? && '_' !in r.value && r.value + "_" <= key
  {
    Substring(key, 0, IndexOf(key, '_'))
  }

  /** `removePre`: the text after the first '_', or the whole key when there is none. */
  function RemovePre(key: string): (r: string)
    ensures SubstringFrom(key, IndexOf(key, '_') + 1) == Returns(r)
    ensures '_' !in key ==> r == key
  {
    key[IndexOf(key, '_') + 1..]
  }

  /** A tag without '_' followed by "_" and any rest splits back into the two. */
  lemma {:induction false} SplitAtFirstUnderscore(tag: string, rest: string)
    requires '_' !in tag
    ensures GetPre(tag + "_" + rest) == Returns(tag)
    ensures RemovePre(tag + "_" + rest) == rest
  {
    IndexOfShift(tag, "_" + rest, '_');
    assert tag + "_" + rest == tag + ("_" + rest);
    assert (tag + "_" + rest)[..|tag|] == tag;
    assert (tag + "_" + rest)[|tag| + 1..] == rest;
  }

  /** A stored key of a prefixed kind splits back into its tag and the caller's key. */
  lemma StoredKeySplits(k: Kind, key: string)
    requires Prefixed(k)
    ensures GetPre(StoredKey(k, key)) == Returns(Tag(k))
    ensures RemovePre(StoredKey(k, key)) == key
  {
    SplitAtFirstUnderscore(Tag(k), key);
  }

  /** The `switch (getPre(...))` labels of `printAll`, per shared map. */
  function KindOfTag(st: Store, tag: string): Option<Kind> {
    match st
    case Ints => (match tag case "id" => Some(ResourceId) case "int" => Some(Int) case "color" => Some(Color) case _ => None)
    case Xpps => (match tag case "anim" => Some(Anim) case "menu" => Some(Menu) case "layout" => Some(Layout) case "xml" => Some(Xml) case _ => None)
    case Drawables => (match tag case "drawable" => Some(Drawable) case "mipmap" => Some(Mipmap) case _ => None)
    case Floats => (match tag case "dimen" => Some(Dimension) case "fraction" => Some(Fraction) case "float" => Some(Float) case _ => None)
    case ArrayInts => Some(IntArray)
    case ArrayStrings => Some(StringArray)
    case Bools => Some(Boolean)
    case Streams => Some(Raw)
    case Strings => Some(String)
    case Objects => Some(Object)
  }

  /**
    How `printAll` labels one entry of map `st`: the kind it reports and the
    key it prints, nothing for an unknown tag of a shared map, or the
    exception `getPre` throws.
   */
  function Describe(st: Store, storedKey: string): (r: Outcome<Option<(Kind, string)>>)
    ensures r.Returns? && r.value.Some? ==> StoreOf(r.value.value.0) == st
  {
    if st in {Ints, Xpps, Drawables, Floats} then
      match GetPre(storedKey)
      case Throws(e) => Throws(e)
      case Returns(tag) =>
        match KindOfTag(st, tag)
        case None => Returns(None)
        case Some(k) => Returns(Some((k, RemovePre(storedKey))))
    else
      Returns(Some((KindOfTag(st, "").value, storedKey)))
  }

  /** Each tag is a case label of the switch for its own map, and each label names its kind. */
  lemma KindOfOwnTag(k: Kind)
    ensures Prefixed(k) ==> KindOfTag(StoreOf(k), Tag(k)) == Some(k)
    ensures !Prefixed(k) ==> KindOfTag(StoreOf(k), "") == Some(k)
    ensures Prefixed(k) <==> StoreOf(k) in {Ints, Xpps, Drawables, Floats}
  {
  }

  /** Every entry a `put` creates is reported under its own kind and the caller's key. */
  lemma {:induction false} DescribeRecoversPut(k: Kind, key: string)
    ensures Describe(StoreOf(k), StoredKey(k, key)) == Returns(Some((k, key)))
  {
    KindOfOwnTag(k);
    if Prefixed(k) {
      StoredKeySplits(k, key);
      assert GetPre(StoredKey(k, key)) == Returns(Tag(k));
    } else {
      assert StoredKey(k, key) == key;
    }
  }

  // ---------------------------------------------------------------- parcel

  /** One `writeValue` of the next item extends the written prefix by that item. */
  lemma AppendOne(p: seq<map<string, Value>>, fs: seq<map<string, Value>>, k: nat)
    requires k < |fs|
    ensures p + fs[..k] + [fs[k]] == p + fs[..k + 1]
  {
    assert fs[..k] + [fs[k]] == fs[..k + 1];
  }

  /** Ten single appends, one per `writeValue`, append the ten items in order. */
  lemma AppendEach(p: seq<map<string, Value>>, fs: seq<map<string, Value>>)
    requires |fs| == 10
    ensures p + [fs[0]] + [fs[1]] + [fs[2]] + [fs[3]] + [fs[4]] + [fs[5]] + [fs[6]] + [fs[7]] + [fs[8]] + [fs[9]] == p + fs
  {
    assert p + fs[..0] == p;
    AppendOne(p, fs, 0);
    AppendOne(p, fs, 1);
    AppendOne(p, fs, 2);
    AppendOne(p, fs, 3);
    AppendOne(p, fs, 4);
    AppendOne(p, fs, 5);
    AppendOne(p, fs, 6);
    AppendOne(p, fs, 7);
    AppendOne(p, fs, 8);
    AppendOne(p, fs, 9);
    assert fs[..10] == fs;
  }

  /** The ten maps in the order `writeToParcel` writes them. */
  function Fields(s: Maps): (fs: seq<map<string, Value>>)
    ensures |fs| == 10 && FromFields(fs) == s
  {
    [s.ints, s.xpps, s.arrayInt, s.arrayString, s.bools,
     s.drawables, s.floats, s.streams, s.strings, s.objects]
  }

  /** The ten maps as the `Parcel` constructor assigns them, one `readValue` each. */
  function FromFields(fs: seq<map<string, Value>>): Maps
    requires |fs| == 10
  {
    Maps(fs[0], fs[1], fs[2], fs[3], fs[4], fs[5], fs[6], fs[7], fs[8], fs[9])
  }

  // ----------------------------------------------------------------- class

  class ResourcesHolder {
    var ints: map<string, Value>
    var xpps: map<string, Value>
    var arrayInt: map<string, Value>
    var arrayString: map<string, Value>
    var bools: map<string, Value>
    var drawables: map<string, Value>
    var floats: map<string, Value>
    var streams: map<string, Value>
    var strings: map<string, Value>
    var objects: map<string, Value>

    function State(): Maps
      reads this
    {
      Maps(ints, xpps, arrayInt, arrayString, bools, drawables, floats, streams, strings, objects)
    }

    constructor ()
      ensures State() == Empty()
    {
      ints, xpps, arrayInt, arrayString, bools := map[], map[], map[], map[], map[];
      drawables, floats, streams, strings, objects := map[], map[], map[], map[], map[];
    }

    method PutResourceId(key: string, resId: Int32) returns (self: ResourcesHolder)
      modifies this
      ensures self == this && State() == Put(old(State()), ResourceId, key, IntegerBox(resId))
    {
      assert StoredKey(ResourceId, key) == "id_" + key;
      ints := ints["id_" + key := IntegerBox(resId)];
      self := this;
    }

    method PutAnim(key: string, anim: XmlParser) returns (self: ResourcesHolder)
      modifies this
      ensures self == this && State() == Put(old(State()), Anim, key, anim)
    {
      assert StoredKey(Anim, key) == "anim_" + key;
      xpps := xpps["anim_" + key := anim];
      self := this;
    }

    method PutIntArray(key: string, value: IntArrayRef) returns (self: ResourcesHolder)
      modifies this
      ensures self == this && State() == Put(old(State()), IntArray, key, value)
    {
      assert StoredKey(IntArray, key) == key;
      arrayInt := arrayInt[key := value];
      self := this;
    }

    method PutStringArray(key: string, strs: StringArrayRef) returns (self: ResourcesHolder)
      modifies this
      ensures self == this && State() == Put(old(State()), StringArray, key, strs)
    {
      assert StoredKey(StringArray, key) == key;
      arrayString := arrayString[key := strs];
      self := this;
    }

    method PutBoolean(key: string, flag: bool) returns (self: ResourcesHolder)
      modifies this
      ensures self == this && State() == Put(old(State()), Boolean, key, BooleanBox(flag))
    {
      assert StoredKey(Boolean, key) == key;
      bools := bools[key := BooleanBox(flag)];
      self := this;
    }

    method PutColor(key: string, color: Int32) returns (self: ResourcesHolder)
      modifies this
      ensures self == this && State() == Put(old(State()), Color, key, IntegerBox(color))
    {
      assert StoredKey(Color, key) == "color_" + key;
      ints := ints["color_" + key := IntegerBox(color)];
      self := this;
    }

    method PutDimension(key: string, dimen: bv32) returns (self: ResourcesHolder)
      modifies this
      ensures self == this && State() == Put(old(State()), Dimension, key, FloatBox(dimen))
    {
      assert StoredKey(Dimension, key) == "dimen_" + key;
      floats := floats["dimen_" + key := FloatBox(dimen)];
      self := this;
    }

    method PutDrawable(key: string, drawable: DrawableRef) returns (self: ResourcesHolder)
      modifies this
      ensures self == this && State() == Put(old(State()), Drawable, key, drawable)
    {
      assert StoredKey(Drawable, key) == "drawable_" + key;
      drawables := drawables["drawable_" + key := drawable];
      self := this;
    }

    method PutFloat(key: string, value: bv32) returns (self: ResourcesHolder)
      modifies this
      ensures self == this && State() == Put(old(State()), Float, key, FloatBox(value))
    {
      assert StoredKey(Float, key) == "float_" + key;
      floats := floats["float_" + key := FloatBox(value)];
      self := this;
    }

    method PutFraction(key: string, fraction: bv32) returns (self: ResourcesHolder)
      modifies this
      ensures self == this && State() == Put(old(State()), Fraction, key, FloatBox(fraction))
    {
      assert StoredKey(Fraction, key) == "fraction_" + key;
      floats := floats["fraction_" + key := FloatBox(fraction)];
      self := this;
    }

    method PutInt(key: string, value: Int32) returns (self: ResourcesHolder)
      modifies this
      ensures self == this && State() == Put(old(State()), Int, key, IntegerBox(value))
    {
      assert StoredKey(Int, key) == "int_" + key;
      ints := ints["int_" + key := IntegerBox(value)];
      self := this;
    }

    method PutLayout(key: string, layout: XmlParser) returns (self: ResourcesHolder)
      modifies this
      ensures self == this && State() == Put(old(State()), Layout, key, layout)
    {
      assert StoredKey(Layout, key) == "layout_" + key;
      xpps := xpps["layout_" + key := layout];
      self := this;
    }

    method PutMenu(key: string, menu: XmlParser) returns (self: ResourcesHolder)
      modifies this
      ensures self == this && State() == Put(old(State()), Menu, key, menu)
    {
      assert StoredKey(Menu, key) == "menu_" + key;
      xpps := xpps["menu_" + key := menu];
      self := this;
    }

    method PutMipmap(key: string, mipmap: DrawableRef) returns (self: ResourcesHolder)
      modifies this
      ensures self == this && State() == Put(old(State()), Mipmap, key, mipmap)
    {
      assert StoredKey(Mipmap, key) == "mipmap_" + key;
      drawables := drawables["mipmap_" + key := mipmap];
      self := this;
    }

    method PutRaw(key: string, raw: InputStreamRef) returns (self: ResourcesHolder)
      modifies this
      ensures self == this && State() == Put(old(State()), Raw, key, raw)
    {
      assert StoredKey(Raw, key) == key;
      streams := streams[key := raw];
      self := this;
    }

    method PutString(key: string, str: JString) returns (self: ResourcesHolder)
      modifies this
      ensures self == this && State() == Put(old(State()), String, key, str)
    {
      assert StoredKey(String, key) == key;
      strings := strings[key := str];
      self := this;
    }

    method PutXml(key: string, xml: XmlParser) returns (self: ResourcesHolder)
      modifies this
      ensures self == this && State() == Put(old(State()), Xml, key, xml)
    {
      assert StoredKey(Xml, key) == "xml_" + key;
      xpps := xpps["xml_" + key := xml];
      self := this;
    }

    method PutObject(key: string, obj: Value) returns (self: ResourcesHolder)
      modifies this
      ensures self == this && State() == Put(old(State()), Object, key, obj)
    {
      assert StoredKey(Object, key) == key;
      objects := objects[key := obj];
      self := this;
    }

    /** `ints.get("id_" + key)` unboxed into an int. */
    function GetResourceId(key: string): (r: Outcome<Value>)
      reads this
      ensures r == Get(State(), ResourceId, key)
    {
      Unbox(Lookup(ints, "id_" + key))
    }

    function GetAnim(key: string): (r: Value)
      reads this
      ensures Returns(r) == Get(State(), Anim, key)
    {
      Lookup(xpps, "anim_" + key)
    }

    function GetIntArray(key: string): (r: Value)
      reads this
      ensures Returns(r) == Get(State(), IntArray, key)
    {
      Lookup(arrayInt, key)
    }

    function GetStringArray(key: string): (r: Value)
      reads this
      ensures Returns(r) == Get(State(), StringArray, key)
    {
      Lookup(arrayString, key)
    }

    function GetBoolean(key: string): (r: Outcome<Value>)
      reads this
      ensures r == Get(State(), Boolean, key)
    {
      Unbox(Lookup(bools, key))
    }

    function GetColor(key: string): (r: Outcome<Value>)
      reads this
      ensures r == Get(State(), Color, key)
    {
      Unbox(Lookup(ints, "color_" + key))
    }

    function GetDimension(key: string): (r: Outcome<Value>)
      reads this
      ensures r == Get(State(), Dimension, key)
    {
      Unbox(Lookup(floats, "dimen_" + key))
    }

    function GetDrawable(key: string): (r: Value)
      reads this
      ensures Returns(r) == Get(State(), Drawable, key)
    {
      Lookup(drawables, "drawable_" + key)
    }

    function GetFloat(key: string): (r: Outcome<Value>)
      reads this
      ensures r == Get(State(), Float, key)
    {
      Unbox(Lookup(floats, "float_" + key))
    }

    function GetFraction(key: string): (r: Outcome<Value>)
      reads this
      ensures r == Get(State(), Fraction, key)
    {
      Unbox(Lookup(floats, "fraction_" + key))
    }

    function GetInt(key: string): (r: Outcome<Value>)
      reads this
      ensures r == Get(State(), Int, key)
    {
      Unbox(Lookup(ints, "int_" + key))
    }

    function GetLayout(key: string): (r: Value)
      reads this
      ensures Returns(r) == Get(State(), Layout, key)
    {
      Lookup(xpps, "layout_" + key)
    }

    function GetMenu(key: string): (r: Value)
      reads this
      ensures Returns(r) == Get(State(), Menu, key)
    {
      Lookup(xpps, "menu_" + key)
    }

    function GetMipmap(key: string): (r: Value)
      reads this
      ensures Returns(r) == Get(State(), Mipmap, key)
    {
      Lookup(drawables, "mipmap_" + key)
    }

    function GetRaw(key: string): (r: Value)
      reads this
      ensures Returns(r) == Get(State(), Raw, key)
    {
      Lookup(streams, key)
    }

    function GetString(key: string): (r: Value)
      reads this
      ensures Returns(r) == Get(State(), String, key)
    {
      Lookup(strings, key)
    }

    function GetXml(key: string): (r: Value)
      reads this
      ensures Returns(r) == Get(State(), Xml, key)
    {
      Lookup(xpps, "xml_" + key)
    }

    function GetObject(key: string): (r: Value)
      reads this
      ensures Returns(r) == Get(State(), Object, key)
    {
      Lookup(objects, key)
    }

    method Clear()
      modifies this
      ensures State() == Empty()
    {
      ints, xpps, arrayInt, arrayString, bools := map[], map[], map[], map[], map[];
      drawables, floats, streams, strings, objects := map[], map[], map[], map[], map[];
    }

    method WriteToParcel(dest: Parcel)
      modifies dest
      ensures dest.items == old(dest.items) + Fields(State())
    {
      ghost var before := dest.items;
      dest.WriteValue(ints);
      dest.WriteValue(xpps);
      dest.WriteValue(arrayInt);
      dest.WriteValue(arrayString);
      dest.WriteValue(bools);
      dest.WriteValue(drawables);
      dest.WriteValue(floats);
      dest.WriteValue(streams);
      dest.WriteValue(strings);
      dest.WriteValue(objects);
      assert dest.items == before + [ints] + [xpps] + [arrayInt] + [arrayString] + [bools] + [drawables] + [floats] + [streams] + [strings] + [objects];
      AppendEach(before, Fields(State()));
    }

    /** The `Parcel` constructor: ten `readValue`s, in declaration order. */
    constructor FromParcel(source: Parcel)
      requires source.position + 10 <= |source.items|
      modifies source
      ensures State() == FromFields(old(source.items[source.position..source.position + 10]))
      ensures source.items == old(source.items) && source.position == old(source.position) + 10
    {
      var m0 := source.ReadValue();
      var m1 := source.ReadValue();
      var m2 := source.ReadValue();
      var m3 := source.ReadValue();
      var m4 := source.ReadValue();
      var m5 := source.ReadValue();
      var m6 := source.ReadValue();
      var m7 := source.ReadValue();
      var m8 := source.ReadValue();
      var m9 := source.ReadValue();
      ints, xpps, arrayInt, arrayString, bools := m0, m1, m2, m3, m4;
      drawables, floats, streams, strings, objects := m5, m6, m7, m8, m9;
    }
  }

  /** The unboxing `get`s: a null from the map throws. */
  function Unbox(v: Value): (r: Outcome<Value>)
    ensures r.Throws? <==> v == Null
    ensures r.Returns? ==> r.value == v
  {
    if v == Null then Throws(NullPointerException) else Returns(v)
  }

  /** Writing a holder to a parcel and reading it back yields the same ten maps. */
  method ParcelRoundTrip(holder: ResourcesHolder) returns (copy: ResourcesHolder)
    ensures fresh(copy) && copy.State() == holder.State()
  {
    var parcel := new Parcel();
    holder.WriteToParcel(parcel);
    parcel.SetDataPosition(0);
    assert parcel.items[0..10] == Fields(holder.State());
    copy := new ResourcesHolder.FromParcel(parcel);
  }
}
