/**
  The resources-helper `InternalAccessor`: ids are looked up by name through
  `Resources.getIdentifier`, a zero answer becomes a
  `Resources.NotFoundException`, and each typed getter loads the resolved id
  through a fixed platform loader. Its `Builder` can copy every value it
  hands out into a (typed) `ResourcesHolder` under the resource name.
 */
module IdentifierAccessor {
  import opened Java
  import opened JavaString
  import opened Platform
  import opened Getters
  import TypedHolder

  /** The public constants `ANIM` ... `TRANSITION`: each is its R class's own name, in lower case. */
  function Constant(c: Category): (s: string)
    ensures s == Word(c)
    ensures ToLowerCase(s) == s && Trim(s) == s
  {
    LowerWordIsNormal(Word(c));
    match c
    case Anim => "anim"
    case Array => "array"
    case Attr => "attr"
    case Bool => "bool"
    case Color => "color"
    case Dimen => "dimen"
    case Drawable => "drawable"
    case Id => "id"
    case Integer => "integer"
    case Layout => "layout"
    case Plurals => "plurals"
    case Raw => "raw"
    case String => "string"
    case Style => "style"
    case Styleable => "styleable"
    case Xml => "xml"
    case Fraction => "fraction"
    case Interpolator => "interpolator"
    case Menu => "menu"
    case Mipmap => "mipmap"
    case Transition => "transition"
  }

  /** The `Resources.NotFoundException` text: it quotes the category and then the name. */
  function NotFoundMessage(clas: string, resName: string, sdk: Int32): (m: string)
    ensures |m| > 20 + |clas| + |resName|
    ensures m[13..13 + |clas|] == clas
    ensures m[20 + |clas|..20 + |clas| + |resName|] == resName
  {
    Embedded("Cannot find '", clas, "' for '", resName,
      "', or this resource currently is not available for API " + DecimalString(sdk));
    "Cannot find '" + clas + "' for '" + resName +
      "', or this resource currently is not available for API " + DecimalString(sdk)
  }

  /**
    `getResourceId(clas, resName)`: a nonzero identifier is returned as is;
    zero, the platform's "no such resource", is never returned but thrown.
   */
  function GetResourceId(res: Resources, clas: string, resName: string): (r: Outcome<Int32>)
    ensures r.Returns? ==> r.value != 0
    ensures Identifier(res, clas, resName) != 0 ==> r == Returns(Identifier(res, clas, resName))
    ensures Identifier(res, clas, resName) == 0 ==> r == Throws(NotFoundException(NotFoundMessage(clas, resName, res.sdk)))
  {
    var id := Identifier(res, clas, resName);
    if id == 0 then Throws(NotFoundException(NotFoundMessage(clas, resName, res.sdk)))
    else Returns(id)
  }

  /** The constant each static getter resolves its name under. */
  function CategoryOf(g: Getter): Category {
    match g
    case GetAnimation => Anim
    case GetBoolean => Bool
    case GetColor => Color
    case GetDimension => Dimen
    case GetDrawable | GetThemedDrawable(_) => Drawable
    case GetFraction(_, _) => Fraction
    case GetInteger => Integer
    case GetLayout => Layout
    case GetMenu => Menu
    case GetMipmap | GetThemedMipmap(_) => Mipmap
    case GetRaw => Raw
    case GetIntArray | GetStringArray => Array
    case GetString => String
    case GetXml => Xml
  }

  /** The `Resources.getSystem()` loader each static getter hands the id to. */
  function LoadOf(g: Getter): Load {
    match g
    case GetAnimation => LoadAnimation
    case GetBoolean => LoadBoolean
    case GetColor => LoadColor
    case GetDimension => LoadDimension
    case GetDrawable | GetMipmap => LoadDrawable
    case GetThemedDrawable(t) => LoadThemedDrawable(t)
    case GetThemedMipmap(t) => LoadThemedDrawable(t)
    case GetFraction(base, pbase) => LoadFraction(base, pbase)
    case GetInteger => LoadInteger
    case GetLayout | GetMenu => LoadLayout
    case GetRaw => OpenRawResource
    case GetIntArray => LoadIntArray
    case GetStringArray => LoadStringArray
    case GetString => LoadString
    case GetXml => LoadXml
  }

  /** The categories and loaders that are shared or borrowed between getters. */
  lemma GetterTable(t: nat)
    ensures CategoryOf(GetIntArray) == CategoryOf(GetStringArray) == Array
    ensures CategoryOf(GetMenu) == Menu && LoadOf(GetMenu) == LoadOf(GetLayout)
    ensures CategoryOf(GetMipmap) == CategoryOf(GetThemedMipmap(t)) == Mipmap
    ensures LoadOf(GetMipmap) == LoadOf(GetDrawable) && LoadOf(GetThemedMipmap(t)) == LoadOf(GetThemedDrawable(t))
  {
  }

  /**
    The static `get*` methods: resolve the name under the getter's constant,
    then load the id. A name the platform does not know throws before any
    loader runs, and a loader never sees the id 0.
   */
  function Fetch(res: Resources, g: Getter, resName: string): (r: Outcome<Value>)
    ensures Identifier(res, Constant(CategoryOf(g)), resName) == 0 ==>
      r == Throws(NotFoundException(NotFoundMessage(Word(CategoryOf(g)), resName, res.sdk)))
    ensures Identifier(res, Constant(CategoryOf(g)), resName) != 0 ==>
      r == res.load(LoadOf(g), Identifier(res, Constant(CategoryOf(g)), resName))
  {
    match GetResourceId(res, Constant(CategoryOf(g)), resName)
    case Throws(e) => Throws(e)
    case Returns(id) => res.load(LoadOf(g), id)
  }

  /**
    The deprecated `Builder`: each `get*` calls the static getter and, when
    `saveToResourcesHolder` is set, puts the result into its holder under
    the bare `resName`.
   */
  class Builder {
    const saveToResourcesHolder: bool
    const holder: TypedHolder.ResourcesHolder

    constructor (saveToResourcesHolder: bool)
      ensures this.saveToResourcesHolder == saveToResourcesHolder
      ensures fresh(holder) && holder.values == map[]
    {
      this.saveToResourcesHolder := saveToResourcesHolder;
      holder := new TypedHolder.ResourcesHolder();
    }

    /** The holder is never replaced, so every call hands out the same instance. */
    function GetResourcesHolder(): (h: TypedHolder.ResourcesHolder)
      ensures h == holder
    {
      holder
    }

    /**
      `getAnimation` ... `getXml` (the fifteen unthemed getters). The value
      is what the static getter returned; it is stored exactly when saving
      is on and the static getter returned, since a throw leaves before
      `put`.
     */
    method Get(res: Resources, g: Unthemed, resName: string) returns (r: Outcome<Value>)
      modifies holder
      ensures r == Fetch(res, g, resName)
      ensures saveToResourcesHolder && r.Returns? ==> holder.values == old(holder.values)[resName := r.value]
      ensures !saveToResourcesHolder || r.Throws? ==> holder.values == old(holder.values)
    {
      r := Fetch(res, g, resName);
      if r.Throws? {
        return;
      }
      if saveToResourcesHolder {
        var _ := holder.Put(resName, r.value);
      }
    }
  }

  /** Of two puts under one key only the second survives. */
  lemma OverwriteTwice(m: map<string, Value>, key: string, first: Value, second: Value)
    ensures m[key := first][key := second] == m[key := second]
  {
  }

  /**
    Two saving `get`s under one name keep only the second value: every kind
    goes under the bare `resName`, so e.g. a boolean replaces a string.
   */
  method GetTwice(b: Builder, res: Resources, first: Unthemed, second: Unthemed, resName: string)
    returns (r1: Outcome<Value>, r2: Outcome<Value>)
    requires b.saveToResourcesHolder
    modifies b.holder
    ensures r1 == Fetch(res, first, resName) && r2 == Fetch(res, second, resName)
    ensures r2.Returns? ==> b.holder.values == old(b.holder.values)[resName := r2.value]
    ensures r2.Throws? && r1.Returns? ==> b.holder.values == old(b.holder.values)[resName := r1.value]
  {
    ghost var before := b.holder.values;
    r1 := b.Get(res, first, resName);
    r2 := b.Get(res, second, resName);
    if r1.Returns? && r2.Returns? {
      OverwriteTwice(before, resName, r1.value, r2.value);
    }
  }
}
