/**
  The Android platform as the accessors see it, reduced to data: the
  resource classes of `com.android.internal.R`, the answers of reflection
  and of `Resources.getIdentifier`, the running API level, and the value a
  resource loader hands back for an id. None of it is computed here; the
  accessors are modelled against any such platform.
 */
module Platform {
  import opened Java
  import opened JavaString

  /** The 21 nested classes of `com.android.internal.R` the accessors know. */
  datatype Category =
    | Anim | Array | Attr | Bool | Color | Dimen | Drawable | Id | Integer
    | Layout | Plurals | Raw | String | Style | Styleable | Xml
    | Fraction | Interpolator | Menu | Mipmap | Transition

  /** The simple name of the class `com.android.internal.R.<word>`. */
  function Word(c: Category): (w: string)
    ensures |w| > 0 && IsLowerWord(w)
  {
    match c
    case Anim => "anim"
    case Array => "array"
    case Attr => "attr"
    case Bool => "bool"
    case Color => "color"
    case Dimen => "dimen"
    case Drawable => "drawable"
    case Id => "id"
    case Integer => "integer"
    case Layout => "layout"
    case Plurals => "plurals"
    case Raw => "raw"
    case String => "string"
    case Style => "style"
    case Styleable => "styleable"
    case Xml => "xml"
    case Fraction => "fraction"
    case Interpolator => "interpolator"
    case Menu => "menu"
    case Mipmap => "mipmap"
    case Transition => "transition"
  }

  /** How `R.<category>.class.getField(name).getInt(null)` ends. */
  datatype FieldLookup =
    | Field(id: Int32)
    | NoSuchField
    | NoClassDef
    | IllegalAccess
    /** the field exists but is not an int (the `int[]` entries of `R.styleable`) */
    | NotInt

  /** The platform loaders the getters hand a resolved id to. */
  datatype Load =
    | LoadAnimation
    | LoadBoolean
    | LoadColor
    | LoadDimension
    | LoadDrawable
    | LoadThemedDrawable(theme: nat)
    | LoadFraction(base: Int32, pbase: Int32)
    | LoadInteger
    | LoadLayout
    | OpenRawResource
    | LoadIntArray
    | LoadStringArray
    | LoadString
    | LoadXml
    /** `ContextCompat.getDrawable(context, id)` */
    | CompatLoadDrawable
    /** `context.getString(id)` */
    | ContextLoadString

  /**
    One device: its API level, the reflective field table of the internal
    R classes (an absent entry is a missing field), the table behind
    `getIdentifier(name, type, "android")` (an absent entry answers 0), and
    what each loader does with an id.
   */
  datatype Resources = Resources(
    sdk: Int32,
    fields: map<(Category, string), FieldLookup>,
    identifiers: map<(string, string), Int32>,
    load: (Load, Int32) -> Outcome<Value>)

  function FieldOf(res: Resources, c: Category, name: string): (f: FieldLookup)
    ensures (c, name) !in res.fields ==> f == NoSuchField
  {
    if (c, name) in res.fields then res.fields[(c, name)] else NoSuchField
  }

  /** `getIdentifier(name, type, "android")`: 0 when there is no such resource. */
  function Identifier(res: Resources, clas: string, name: string): (id: Int32)
    ensures (clas, name) !in res.identifiers ==> id == 0
  {
    if (clas, name) in res.identifiers then res.identifiers[(clas, name)] else 0
  }
}
