/**
  The `Builder` of the android-hidden-api `InternalAccessor`: it keeps a
  context and, when `saveToResourcesHolder` is set, puts every value its
  context getters return into its holder under the bare `resName`.

  That library's own `ResourcesHolder` is not part of this model; its `put`
  is taken to be a plain map update, which is what the resources-helper
  holder's `Put` is, so that class stands in for it.
 */
module HiddenApiBuilder {
  import opened Java
  import opened Platform
  import opened Getters
  import ReflectiveAccessor
  import TypedHolder

  class Builder {
    /** The context's resources: everything the context getters consult. */
    const context: Resources
    const saveToResourcesHolder: bool
    const holder: TypedHolder.ResourcesHolder

    constructor (context: Resources, saveToResourcesHolder: bool)
      ensures this.context == context && this.saveToResourcesHolder == saveToResourcesHolder
      ensures fresh(holder) && holder.values == map[]
    {
      this.context := context;
      this.saveToResourcesHolder := saveToResourcesHolder;
      holder := new TypedHolder.ResourcesHolder();
    }

    /** The holder is never replaced, so every call hands out the same instance. */
    function GetResourcesHolder(): (h: TypedHolder.ResourcesHolder)
      ensures h == holder
    {
      holder
    }

    /**
      `getAnimation(resName)` ... `getXml(resName)`: the context getter's
      result, stored exactly when saving is on and the getter returned; a
      `ResourceNotFoundException` leaves before `put`.
     */
    method Get(g: Unthemed, resName: string) returns (r: Outcome<Value>)
      modifies holder
      ensures r == ReflectiveAccessor.Fetch(context, g, resName)
      ensures saveToResourcesHolder && r.Returns? ==> holder.values == old(holder.values)[resName := r.value]
      ensures !saveToResourcesHolder || r.Throws? ==> holder.values == old(holder.values)
    {
      r := ReflectiveAccessor.Fetch(context, g, resName);
      if r.Throws? {
        return;
      }
      if saveToResourcesHolder {
        var _ := holder.Put(resName, r.value);
      }
    }
  }

  /**
    A saving `get` of a class the device's API level does not have cannot
    fail on the gate: it returns the getter's default and records it under
    the name.
   */
  method GetGatedOut(b: Builder, g: Unthemed, resName: string) returns (r: Outcome<Value>)
    requires b.saveToResourcesHolder && ReflectiveAccessor.Unavailable(ReflectiveAccessor.CategoryOf(g), b.context.sdk)
    modifies b.holder
    ensures r == Returns(ReflectiveAccessor.Default(g))
    ensures b.holder.values == old(b.holder.values)[resName := ReflectiveAccessor.Default(g)]
  {
    ReflectiveAccessor.GatedGetterYieldsDefault(b.context, g, resName);
    r := b.Get(g, resName);
  }
}
