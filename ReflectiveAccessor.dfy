/**
  The reflective `InternalAccessor` of the internal-accessor and
  android-hidden-api libraries (both carry the same `getResourceId` and the
  same context-based getters). The category is normalised, dispatched over
  the 21 R classes, gated on the API level for the five late classes, and
  resolved by reading the static field named `resName`; each failure ends
  in its own way. The getters then turn a `ClassNotFoundException` into a
  default value.
 */
module ReflectiveAccessor {
  import opened Java
  import opened JavaString
  import opened Platform
  import opened Getters

  /** `Build.VERSION_CODES.HONEYCOMB` and `LOLLIPOP`. */
  const HONEYCOMB: Int32 := 11
  const LOLLIPOP: Int32 := 21

  /** `clas.trim().toLowerCase()` */
  function Normalize(clas: string): (n: string)
    ensures |n| <= |clas|
    ensures forall i :: 0 <= i < |n| ==> !('A' <= n[i] <= 'Z')
    ensures |n| > 0 ==> !IsTrimmed(n[0]) && !IsTrimmed(n[|n| - 1])
  {
    LowerKeepsTrimmed(Trim(clas));
    ToLowerCase(Trim(clas))
  }

  /** Normalising twice is normalising once. */
  lemma NormalizeIdempotent(clas: string)
    ensures Normalize(Normalize(clas)) == Normalize(clas)
  {
    var n := Normalize(clas);
    assert Trim(n) == n;
    assert ToLowerCase(n) == n;
  }

  /**
    Any spelling of a class name that differs from it only in the case of
    its ASCII letters and in white space around it normalises to the name.
   */
  lemma {:induction false} NormalizePadded(pre: string, s: string, post: string, c: Category)
    requires AllWhite(pre) && AllWhite(post)
    requires ToLowerCase(s) == Word(c)
    ensures Normalize(pre + s + post) == Word(c)
  {
    var w := Word(c);
    assert LowerChar(s[0]) == w[0] && LowerChar(s[|s| - 1]) == w[|w| - 1];
    LowerKeepsTrimClass(s[0]);
    LowerKeepsTrimClass(s[|s| - 1]);
    TrimOfPadded(pre, s, post);
  }

  /** So such a spelling resolves exactly as the class name itself does. */
  lemma {:induction false} PaddedSpellingResolves(res: Resources, pre: string, s: string, post: string, c: Category, resName: string)
    requires AllWhite(pre) && AllWhite(post)
    requires ToLowerCase(s) == Word(c)
    ensures GetResourceId(res, pre + s + post, resName) == Resolve(res, Word(c), resName)
  {
    NormalizePadded(pre, s, post, c);
  }

  /** The case labels of the `switch (clas)`. */
  function Parse(s: string): (c: Option<Category>)
    ensures c.Some? ==> Word(c.value) == s
  {
    match s
    case "anim" => Some(Anim)
    case "array" => Some(Array)
    case "attr" => Some(Attr)
    case "bool" => Some(Bool)
    case "color" => Some(Color)
    case "dimen" => Some(Dimen)
    case "drawable" => Some(Drawable)
    case "fraction" => Some(Fraction)
    case "id" => Some(Id)
    case "integer" => Some(Integer)
    case "interpolator" => Some(Interpolator)
    case "layout" => Some(Layout)
    case "menu" => Some(Menu)
    case "mipmap" => Some(Mipmap)
    case "plurals" => Some(Plurals)
    case "raw" => Some(Raw)
    case "string" => Some(String)
    case "style" => Some(Style)
    case "styleable" => Some(Styleable)
    case "transition" => Some(Transition)
    case "xml" => Some(Xml)
    case _ => None
  }

  /** Every R class has its case label, so a string selects a category exactly when it is that category's word. */
  lemma ParseWord(s: string, c: Category)
    ensures Parse(s) == Some(c) <==> s == Word(c)
  {
  }

  /** Distinct categories have distinct words. */
  lemma {:induction false} WordInjective(c1: Category, c2: Category)
    requires Word(c1) == Word(c2)
    ensures c1 == c2
  {
    ParseWord(Word(c1), c1);
    ParseWord(Word(c2), c2);
  }

  /** The API level below which a late R class is reported missing; none for the other 16. */
  function MinSdk(c: Category): (api: Option<Int32>)
    ensures api.Some? <==> c in {Fraction, Menu, Mipmap, Interpolator, Transition}
  {
    match c
    case Fraction | Menu | Mipmap => Some(HONEYCOMB)
    case Interpolator | Transition => Some(LOLLIPOP)
    case _ => None
  }

  predicate Unavailable(c: Category, sdk: Int32) {
    MinSdk(c).Some? && sdk < MinSdk(c).value
  }

  /** The text of the `ClassNotFoundException` the gate throws: it names the class and the level it needs. */
  function UnavailableMessage(c: Category): (m: string)
    requires MinSdk(c).Some?
    ensures |m| > 29 + |Word(c)| && m[29..29 + |Word(c)|] == Word(c)
  {
    ClassMessage(Word(c), if MinSdk(c).value == HONEYCOMB then "11" else "21")
  }

  function ClassMessage(word: string, api: string): (m: string)
    ensures |m| > 29 + |word| && m[29..29 + |word|] == word
  {
    Embedded("Class com.android.internal.R.", word, " only available for API ", api, " and higher.");
    "Class com.android.internal.R." + word + " only available for API " + api + " and higher."
  }

  /** `errorMessage(type, resIdName)`: it quotes the category and then the name. */
  function ErrorMessage(category: string, resName: string, sdk: Int32): (m: string)
    ensures |m| > 30 + |category| + |resName|
    ensures m[10..10 + |category|] == category
    ensures m[30 + |category|..30 + |category| + |resName|] == resName
  {
    Embedded("Resource '", category, "' is not found for '", resName,
      "', or this resource currently is not available for API " + DecimalString(sdk));
    "Resource '" + category + "' is not found for '" + resName +
      "', or this resource currently is not available for API " + DecimalString(sdk)
  }

  /**
    `getResourceId(clas, resName)`. It throws only `ClassNotFoundException`
    (checked), `ResourceNotFoundException` (unchecked, a
    `Resources.NotFoundException`) and the unchecked
    `IllegalArgumentException` of `getInt` on a field that is not an int,
    which no `catch` names. 0 comes back for an unknown category and for a
    swallowed `NoClassDefFoundError` or `IllegalAccessException`.
   */
  function GetResourceId(res: Resources, clas: string, resName: string): (r: Outcome<Int32>)
    ensures r.Throws? ==> (r.exception.ClassNotFoundException? || r.exception.ResourceNotFoundException?
      || r.exception == IllegalArgumentException)
  {
    Resolve(res, Normalize(clas), resName)
  }

  /** The `switch` over the normalised category and what follows it. */
  function Resolve(res: Resources, category: string, resName: string): (r: Outcome<Int32>)
    ensures r.Throws? ==> (r.exception.ClassNotFoundException? || r.exception.ResourceNotFoundException?
      || r.exception == IllegalArgumentException)
    ensures r == Throws(IllegalArgumentException) <==>
      Parse(category).Some? && !Unavailable(Parse(category).value, res.sdk)
      && FieldOf(res, Parse(category).value, resName) == NotInt
  {
    match Parse(category)
    case None => Returns(0)
    case Some(c) =>
      if Unavailable(c, res.sdk) then Throws(ClassNotFoundException(UnavailableMessage(c)))
      else
        match FieldOf(res, c, resName)
        case Field(id) => Returns(id)
        case NoSuchField => Throws(ResourceNotFoundException(ErrorMessage(category, resName, res.sdk)))
        case NoClassDef => Returns(0)
        case IllegalAccess => Returns(0)
        case NotInt => Throws(IllegalArgumentException)
  }

  /** A category outside the 21 cases resolves to 0 without throwing. */
  lemma UnknownCategoryIsZero(res: Resources, clas: string, resName: string)
    requires forall c :: Normalize(clas) != Word(c)
    ensures GetResourceId(res, clas, resName) == Returns(0)
  {
    if Parse(Normalize(clas)).Some? {
      ParseWord(Normalize(clas), Parse(Normalize(clas)).value);
    }
  }

  /**
    The API gates: fraction, menu and mipmap need level 11, interpolator and
    transition level 21, and the other sixteen classes are never gated.
   */
  lemma Gates(res: Resources, clas: string, resName: string, c: Category)
    requires Normalize(clas) == Word(c)
    ensures GetResourceId(res, clas, resName).Throws? && GetResourceId(res, clas, resName).exception.ClassNotFoundException?
      <==> (c in {Fraction, Menu, Mipmap} && res.sdk < 11) || (c in {Interpolator, Transition} && res.sdk < 21)
  {
    ParseWord(Word(c), c);
    assert Resolve(res, Word(c), resName).Throws? && Resolve(res, Word(c), resName).exception.ClassNotFoundException?
      <==> Unavailable(c, res.sdk);
    UnavailableLevels(c, res.sdk);
  }

  lemma UnavailableLevels(c: Category, sdk: Int32)
    ensures Unavailable(c, sdk)
      <==> (c in {Fraction, Menu, Mipmap} && sdk < 11) || (c in {Interpolator, Transition} && sdk < 21)
  {
  }

  /**
    Past the gate, the field decides: its value is returned, a missing field
    is reported with the normalised category and the name, the two
    swallowed errors give 0, and a field that is not an int lets `getInt`'s
    `IllegalArgumentException` out.
   */
  lemma FieldOutcomes(res: Resources, clas: string, resName: string, c: Category)
    requires Normalize(clas) == Word(c) && !Unavailable(c, res.sdk)
    ensures FieldOf(res, c, resName).Field? ==> GetResourceId(res, clas, resName) == Returns(FieldOf(res, c, resName).id)
    ensures FieldOf(res, c, resName) == NoSuchField ==>
      GetResourceId(res, clas, resName) == Throws(ResourceNotFoundException(ErrorMessage(Word(c), resName, res.sdk)))
    ensures FieldOf(res, c, resName) in {NoClassDef, IllegalAccess} ==> GetResourceId(res, clas, resName) == Returns(0)
    ensures FieldOf(res, c, resName) == NotInt ==> GetResourceId(res, clas, resName) == Throws(IllegalArgumentException)
  {
    ParseWord(Normalize(clas), c);
  }

  /** The not-found message is built from the category as normalised, not as the caller wrote it. */
  lemma MessageQuotesNormalized(res: Resources, clas: string, resName: string)
    requires GetResourceId(res, clas, resName).Throws?
    requires GetResourceId(res, clas, resName).exception.ResourceNotFoundException?
    ensures GetResourceId(res, clas, resName).exception.message == ErrorMessage(Normalize(clas), resName, res.sdk)
  {
    ResolveMessage(res, Normalize(clas), resName);
  }

  lemma ResolveMessage(res: Resources, category: string, resName: string)
    requires Resolve(res, category, resName).Throws?
    requires Resolve(res, category, resName).exception.ResourceNotFoundException?
    ensures Resolve(res, category, resName).exception.message == ErrorMessage(category, resName, res.sdk)
  {
    var c := Parse(category).value;
    assert !Unavailable(c, res.sdk);
    assert FieldOf(res, c, resName) == NoSuchField;
  }

  /** Resolution sees the category only through its normal form. */
  lemma {:induction false} NormalizedCategoryResolvesAlike(res: Resources, clas: string, resName: string)
    ensures GetResourceId(res, Normalize(clas), resName) == GetResourceId(res, clas, resName)
  {
    NormalizeIdempotent(clas);
  }

  /** The category word each context getter passes to `getResourceId`. */
  function WordOf(g: Unthemed): (w: string)
    ensures IsLowerWord(w) && Parse(w).Some?
  {
    match g
    case GetAnimation => "anim"
    case GetBoolean => "bool"
    case GetColor => "color"
    case GetDimension => "dimen"
    case GetDrawable => "drawable"
    case GetFraction(_, _) => "fraction"
    case GetInteger => "integer"
    case GetLayout => "layout"
    case GetMenu => "menu"
    case GetMipmap => "mipmap"
    case GetRaw => "raw"
    case GetIntArray | GetStringArray => "array"
    case GetString => "string"
    case GetXml => "xml"
  }

  /** The loader each context getter hands the id to. */
  function LoadOf(g: Unthemed): Load {
    match g
    case GetAnimation => LoadAnimation
    case GetBoolean => LoadBoolean
    case GetColor => LoadColor
    case GetDimension => LoadDimension
    case GetDrawable => CompatLoadDrawable
    case GetFraction(base, pbase) => LoadFraction(base, pbase)
    case GetInteger => LoadInteger
    case GetLayout | GetMenu => LoadLayout
    case GetMipmap => LoadDrawable
    case GetRaw => OpenRawResource
    case GetIntArray => LoadIntArray
    case GetStringArray => LoadStringArray
    case GetString => ContextLoadString
    case GetXml => LoadXml
  }

  /** What a getter returns after catching `ClassNotFoundException`: false, 0, 0.0f or null. */
  function Default(g: Unthemed): Value {
    match g
    case GetBoolean => BooleanBox(false)
    case GetColor | GetInteger => IntegerBox(0)
    case GetDimension | GetFraction(_, _) => FloatBox(0)
    case _ => Null
  }

  /** Every getter's word is one of the case labels, already in normal form. */
  lemma GetterWordsResolve(g: Unthemed)
    ensures Normalize(WordOf(g)) == WordOf(g)
    ensures Parse(WordOf(g)).Some?
    ensures g.GetIntArray? || g.GetStringArray? ==> Parse(WordOf(g)) == Some(Array)
    ensures g.GetMenu? ==> Parse(WordOf(g)) == Some(Menu)
  {
    LowerWordIsNormal(WordOf(g));
  }

  /** The `catch (ClassNotFoundException e)` around each getter's body. */
  function CatchClassNotFound(attempt: Outcome<Value>, default: Value): (r: Outcome<Value>)
    ensures attempt.Throws? && attempt.exception.ClassNotFoundException? ==> r == Returns(default)
    ensures !(attempt.Throws? && attempt.exception.ClassNotFoundException?) ==> r == attempt
  {
    match attempt
    case Throws(ClassNotFoundException(_)) => Returns(default)
    case _ => attempt
  }

  /**
    The context getters `getAnimation(context, resName)` ... `getXml`: a
    gate failure turns into the getter's default, a missing or non-int
    field propagates, and otherwise the loader runs on whatever id came back
    (0 included).
   */
  function Fetch(res: Resources, g: Unthemed, resName: string): (r: Outcome<Value>)
    ensures GetResourceId(res, WordOf(g), resName).Throws? ==>
      var e := GetResourceId(res, WordOf(g), resName).exception;
      r == if e.ClassNotFoundException? then Returns(Default(g)) else Throws(e)
    ensures GetResourceId(res, WordOf(g), resName).Returns? ==>
      r == CatchClassNotFound(res.load(LoadOf(g), GetResourceId(res, WordOf(g), resName).value), Default(g))
    ensures r.Throws? ==> !r.exception.ClassNotFoundException?
  {
    var attempt :=
      match GetResourceId(res, WordOf(g), resName)
      case Throws(e) => Throws(e)
      case Returns(id) => res.load(LoadOf(g), id);
    CatchClassNotFound(attempt, Default(g))
  }

  /** The R class a context getter resolves under. */
  function CategoryOf(g: Unthemed): (c: Category)
    ensures Word(c) == WordOf(g)
  {
    Parse(WordOf(g)).value
  }

  /**
    A getter whose class is gated out on this API level (menu, mipmap and
    fraction below 11) yields its default instead of throwing.
   */
  lemma GatedGetterYieldsDefault(res: Resources, g: Unthemed, resName: string)
    requires Unavailable(CategoryOf(g), res.sdk)
    ensures Fetch(res, g, resName) == Returns(Default(g))
  {
    GetterWordsResolve(g);
    assert GetResourceId(res, WordOf(g), resName).Throws?;
  }
}
