/**
  The typed getters both accessor generations offer, one constructor per
  public `get*` method (the two overloads of `getDrawable` and of
  `getMipmap` that take a theme are separate getters).
 */
module Getters {
  import opened Java

  datatype Getter =
    | GetAnimation
    | GetBoolean
    | GetColor
    | GetDimension
    | GetDrawable
    | GetThemedDrawable(theme: nat)
    | GetFraction(base: Int32, pbase: Int32)
    | GetInteger
    | GetLayout
    | GetMenu
    | GetMipmap
    | GetThemedMipmap(theme: nat)
    | GetRaw
    | GetIntArray
    | GetStringArray
    | GetString
    | GetXml

  predicate Themed(g: Getter) {
    g.GetThemedDrawable? || g.GetThemedMipmap?
  }

  /** The getters that take no theme: every `Builder` method, and all the context-based ones. */
  type Unthemed = g: Getter | !Themed(g) witness GetAnimation
}
