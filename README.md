# Hidden-API resource accessors and resources holders, modelled in Dafny

The android-hidden-api repository reads resources of Android's internal
`com.android.internal.R` classes by name, and optionally collects the values it
reads in a `ResourcesHolder`. This project models the two parts of it that are
the repository's own logic: the holders and the accessors. The Android
platform is treated as an oracle.

- **The resources holders.**
  - `TypedHolder` models the resources-helper holder. It keeps one map from
    String keys to boxed objects. It has overloaded `put`s, and typed `getAs*`
    readers that fall back to a default when the stored object has another
    class. It also has `remove`, `clear`, `size`, `containsKey`, `sort`,
    `keySet`, `valueSet` and parcel writing and reading.
  - `PrefixedHolder` models the internal-accessor sample's holder. It keeps ten
    maps, one per value type. Kinds that share a map are told apart by key
    prefixes (`id_`, `color_`, `dimen_`, ...), and `printAll` splits those
    prefixes off again with `getPre` and `removePre`.
    - The pure specification is a `Maps` value with `Put` and `Get`.
    - The `ResourcesHolder` class has ten map fields. Each of its methods is
      proved to follow that specification.
- **The accessors.**
  - `IdentifierAccessor` models the resources-helper `InternalAccessor`. It
    looks up ids with `getIdentifier`, and a zero answer becomes
    `NotFoundException`. Its `Builder` copies every value it returns into a
    holder.
  - `ReflectiveAccessor` models the reflective `getResourceId` and the context
    getters. The internal-accessor and android-hidden-api samples share this
    code. The category is trimmed and lowercased, then dispatched over the 21
    R classes and gated on the API level. Each failure maps to its own outcome
    (0, `ClassNotFoundException`, `ResourceNotFoundException`, or the unchecked
    `IllegalArgumentException` of a field that is not an int).
  - `HiddenApiBuilder` models the android-hidden-api `Builder`.
- **Supporting modules.**
  - `Platform` describes the device: its API level, the reflective field table,
    the `getIdentifier` table, and what each loader returns for an id.
  - `Java` and `JavaString` model the few JDK behaviours the code depends on:
    - boxing and exact-class casts;
    - `NullPointerException` on unboxing null;
    - `trim`, ASCII `toLowerCase`, `indexOf` and `substring` with its
      exception;
    - a `Parcel` that appends values on write and reads them back in order.

## Model

In the source column, RH, IH and IA abbreviate these directories:

- RH: `resources-helper/src/main/java/com/anggrayudi/hiddenapi/`
- IH: `sample/internal-accessor/src/main/java/com/anggrayudi/hiddenapi/`
- IA: `sample/android-hidden-api/src/main/java/com/anggrayudi/hiddenapi/`

| member | source | states |
|---|---|---|
| Java.NumberByClass | resources-helper/src/main/java/com/anggrayudi/hiddenapi/ResourcesHolder.java:370 | `instanceof Number` holds exactly for a non-null box whose class is one of the six number classes; null is never an instance |
| TypedHolder.NullNumberGuard | resources-helper/src/main/java/com/anggrayudi/hiddenapi/ResourcesHolder.java:368-373 | when both reads come from the same map entry, the "null Number" guard never fires |
| TypedHolder.IntendedNullNumberGuard | resources-helper/src/main/java/com/anggrayudi/hiddenapi/ResourcesHolder.java:370-371 | corrected guard: it fires exactly for a null value read through a number class |
| TypedHolder.ZeroOf | resources-helper/src/main/java/com/anggrayudi/hiddenapi/ResourcesHolder.java:160-198 | the zero default of a number reader is a non-null box of exactly the requested class |
| TypedHolder.ResourcesHolder.constructor | resources-helper/src/main/java/com/anggrayudi/hiddenapi/ResourcesHolder.java:74-75 | a new holder is empty |
| TypedHolder.ResourcesHolder.Put | resources-helper/src/main/java/com/anggrayudi/hiddenapi/ResourcesHolder.java:82-158 | returns the same holder. Afterwards `containsKey(k)` holds and `getAsObject(k)` returns the value; every other key keeps its presence and value. Size is unchanged on overwrite and grows by exactly one on a fresh key |
| TypedHolder.ResourcesHolder.GetAsObject | resources-helper/src/main/java/com/anggrayudi/hiddenapi/ResourcesHolder.java:244-246 | the stored object, or null when the key is absent |
| TypedHolder.ResourcesHolder.IsCompatibleCast | resources-helper/src/main/java/com/anggrayudi/hiddenapi/ResourcesHolder.java:367-381 | passes exactly when the key is absent, the value is null, or the value's runtime class is the requested one |
| TypedHolder.ResourcesHolder.IntendedIsCompatibleCast | resources-helper/src/main/java/com/anggrayudi/hiddenapi/ResourcesHolder.java:367-381 | corrected check: like the original, except that a null or absent value fails for a number class |
| TypedHolder.ResourcesHolder.IntendedGetAsNumber | resources-helper/src/main/java/com/anggrayudi/hiddenapi/ResourcesHolder.java:160-198 | corrected number readers: never fail; return the stored number of the requested class, otherwise zero of that class |
| TypedHolder.ResourcesHolder.GetAsShort | resources-helper/src/main/java/com/anggrayudi/hiddenapi/ResourcesHolder.java:160-162 | a stored Short is returned; another non-null object gives 0; null or an absent key throws NullPointerException |
| TypedHolder.ResourcesHolder.GetAsByte | resources-helper/src/main/java/com/anggrayudi/hiddenapi/ResourcesHolder.java:164-166 | a stored Byte is returned; another non-null object gives 0; null or absent throws NullPointerException |
| TypedHolder.ResourcesHolder.GetAsChar | resources-helper/src/main/java/com/anggrayudi/hiddenapi/ResourcesHolder.java:168-170 | a stored Character is returned; another non-null object gives '\u0000'; null or absent throws NullPointerException |
| TypedHolder.ResourcesHolder.GetAsBoolean | resources-helper/src/main/java/com/anggrayudi/hiddenapi/ResourcesHolder.java:172-174 | a stored Boolean is returned; another non-null object gives false; null or absent throws NullPointerException |
| TypedHolder.ResourcesHolder.GetAsInteger | resources-helper/src/main/java/com/anggrayudi/hiddenapi/ResourcesHolder.java:180-182 | a stored Integer is returned. Another non-null object gives 0, e.g. a Short stored by `put(String, short)`. Null or absent throws NullPointerException |
| TypedHolder.ResourcesHolder.GetAsLong | resources-helper/src/main/java/com/anggrayudi/hiddenapi/ResourcesHolder.java:184-186 | a stored Long is returned; another non-null object gives 0; null or absent throws NullPointerException |
| TypedHolder.ResourcesHolder.GetAsFloat | resources-helper/src/main/java/com/anggrayudi/hiddenapi/ResourcesHolder.java:192-194 | a stored Float is returned; another non-null object gives +0.0; null or absent throws NullPointerException |
| TypedHolder.ResourcesHolder.GetAsDouble | resources-helper/src/main/java/com/anggrayudi/hiddenapi/ResourcesHolder.java:196-198 | a stored Double is returned; another non-null object gives +0.0; null or absent throws NullPointerException |
| TypedHolder.ResourcesHolder.GetAsString | resources-helper/src/main/java/com/anggrayudi/hiddenapi/ResourcesHolder.java:200-202 | the result is null or a String: the stored String, or null for anything else and for an absent key |
| TypedHolder.ResourcesHolder.GetAsArray | resources-helper/src/main/java/com/anggrayudi/hiddenapi/ResourcesHolder.java:204-238 | each of the nine array readers returns the stored array when its element type matches exactly, and null otherwise |
| TypedHolder.ResourcesHolder.Clear | resources-helper/src/main/java/com/anggrayudi/hiddenapi/ResourcesHolder.java:278-280 | afterwards `size() == 0` and `containsKey` is false for every key |
| TypedHolder.ResourcesHolder.Size | resources-helper/src/main/java/com/anggrayudi/hiddenapi/ResourcesHolder.java:282-284 | the number of keys present |
| TypedHolder.ResourcesHolder.ContainsKey | resources-helper/src/main/java/com/anggrayudi/hiddenapi/ResourcesHolder.java:286-288 | true exactly for the keys present |
| TypedHolder.ResourcesHolder.Remove | resources-helper/src/main/java/com/anggrayudi/hiddenapi/ResourcesHolder.java:293-295 | deletes only `key`. It is a no-op when `key` is absent. Size drops by one exactly when `key` was present |
| TypedHolder.ResourcesHolder.Sort | resources-helper/src/main/java/com/anggrayudi/hiddenapi/ResourcesHolder.java:302-309 | for both flag values, the mapping and size stay the same |
| TypedHolder.ResourcesHolder.KeySet | resources-helper/src/main/java/com/anggrayudi/hiddenapi/ResourcesHolder.java:325-327 | the set of keys for which `containsKey` holds |
| TypedHolder.ResourcesHolder.ValueSet | resources-helper/src/main/java/com/anggrayudi/hiddenapi/ResourcesHolder.java:316-318 | exactly the (key, value) entries of the map |
| TypedHolder.ResourcesHolder.WriteToParcel | resources-helper/src/main/java/com/anggrayudi/hiddenapi/ResourcesHolder.java:389-391 | appends the whole map to the parcel as one value |
| TypedHolder.ResourcesHolder.FromParcel | resources-helper/src/main/java/com/anggrayudi/hiddenapi/ResourcesHolder.java:78-80 | the holder's map is the value under the parcel's cursor, and the cursor advances by one |
| TypedHolder.AbsentNumberCounterexample | resources-helper/src/main/java/com/anggrayudi/hiddenapi/ResourcesHolder.java:367-381 | for an absent key, the written guard does not fire and `getAsInteger` throws, while the intended guard fires and reads 0 |
| TypedHolder.ParcelRoundTrip | resources-helper/src/main/java/com/anggrayudi/hiddenapi/ResourcesHolder.java:60-80 | writing a holder, rewinding, and rebuilding through the `Parcel` constructor gives the same mapping |
| PrefixedHolder.Tag | sample/internal-accessor/src/main/java/com/anggrayudi/hiddenapi/ResourcesHolder.java:70-164 | a kind's prefix name never contains '_' |
| PrefixedHolder.SharedStoresArePrefixed | sample/internal-accessor/src/main/java/com/anggrayudi/hiddenapi/ResourcesHolder.java:50-164 | two different kinds stored in the same map both carry a prefix |
| PrefixedHolder.Prefix | sample/internal-accessor/src/main/java/com/anggrayudi/hiddenapi/ResourcesHolder.java:70-164 | a prefixed kind prepends its name plus "_", and the other kinds prepend nothing |
| PrefixedHolder.NullableStoredKey | sample/internal-accessor/src/main/java/com/anggrayudi/hiddenapi/ResourcesHolder.java:70-164 | with a null key, a prefixed kind stores under its prefix followed by "null", and an unprefixed kind stores under the null key |
| PrefixedHolder.NullKeyCollides | sample/internal-accessor/src/main/java/com/anggrayudi/hiddenapi/ResourcesHolder.java:70-78 | for a prefixed kind, a null key and the key "null" give the same stored key |
| PrefixedHolder.StoredKey | sample/internal-accessor/src/main/java/com/anggrayudi/hiddenapi/ResourcesHolder.java:80-93 | the stored key is the prefix followed by the caller's key. Int arrays, string arrays, booleans, raws, strings and objects use the bare key |
| PrefixedHolder.UnboxingKindsRejectNull | sample/internal-accessor/src/main/java/com/anggrayudi/hiddenapi/ResourcesHolder.java:50-59 | the getters that unbox are exactly the kinds whose map cannot hold null |
| PrefixedHolder.Empty | sample/internal-accessor/src/main/java/com/anggrayudi/hiddenapi/ResourcesHolder.java:50-59 | all ten maps are empty |
| PrefixedHolder.Put | sample/internal-accessor/src/main/java/com/anggrayudi/hiddenapi/ResourcesHolder.java:70-164 | `put<Kind>` sets one stored key in its kind's map and leaves the other nine maps untouched |
| PrefixedHolder.Get | sample/internal-accessor/src/main/java/com/anggrayudi/hiddenapi/ResourcesHolder.java:166-236 | `get<Kind>` reads its kind's map at the stored key. It throws NullPointerException exactly when the getter unboxes and the entry is missing; otherwise it returns the entry or null |
| PrefixedHolder.PrefixesSeparate | sample/internal-accessor/src/main/java/com/anggrayudi/hiddenapi/ResourcesHolder.java:70-78 | two different kinds sharing a map never produce the same stored key, whatever the caller keys are |
| PrefixedHolder.StoredKeyInjective | sample/internal-accessor/src/main/java/com/anggrayudi/hiddenapi/ResourcesHolder.java:95-141 | within one kind, different keys give different stored keys |
| PrefixedHolder.StoredKeysDiffer | sample/internal-accessor/src/main/java/com/anggrayudi/hiddenapi/ResourcesHolder.java:95-141 | two different (kind, key) pairs in one map never share a stored key |
| PrefixedHolder.GetReadsOneEntry | sample/internal-accessor/src/main/java/com/anggrayudi/hiddenapi/ResourcesHolder.java:166-236 | a `get` depends only on the one entry it reads |
| PrefixedHolder.PutTouchesOneEntry | sample/internal-accessor/src/main/java/com/anggrayudi/hiddenapi/ResourcesHolder.java:50-164 | a `put` changes no entry that any other (kind, key) pair reads |
| PrefixedHolder.PutIsolated | sample/internal-accessor/src/main/java/com/anggrayudi/hiddenapi/ResourcesHolder.java:70-236 | after `put<K>(key, v)`, every other (kind, key) pair reads as before |
| PrefixedHolder.GetAfterPut | sample/internal-accessor/src/main/java/com/anggrayudi/hiddenapi/ResourcesHolder.java:70-236 | `get<K>(key)` right after `put<K>(key, v)` returns `v` |
| PrefixedHolder.GetAfterClear | sample/internal-accessor/src/main/java/com/anggrayudi/hiddenapi/ResourcesHolder.java:241-252 | after `clear`, the unboxing getters throw and the others read null |
| PrefixedHolder.PutKeepsTyped | sample/internal-accessor/src/main/java/com/anggrayudi/hiddenapi/ResourcesHolder.java:50-164 | typed `put`s keep every map holding only values of its declared type |
| PrefixedHolder.GetYieldsKind | sample/internal-accessor/src/main/java/com/anggrayudi/hiddenapi/ResourcesHolder.java:166-236 | in a well-typed holder, a getter that returns yields a value of its kind |
| PrefixedHolder.GetPre | sample/internal-accessor/src/main/java/com/anggrayudi/hiddenapi/ResourcesHolder.java:332-334 | with no '_' in the key it throws StringIndexOutOfBoundsException (end index -1). Otherwise it returns a '_'-free text that, followed by "_", starts the key |
| PrefixedHolder.RemovePre | sample/internal-accessor/src/main/java/com/anggrayudi/hiddenapi/ResourcesHolder.java:328-330 | the text after the first '_'; the whole key when there is none (start index 0) |
| PrefixedHolder.SplitAtFirstUnderscore | sample/internal-accessor/src/main/java/com/anggrayudi/hiddenapi/ResourcesHolder.java:328-334 | for a '_'-free `p`, `getPre(p + "_" + k) == p` and `removePre(p + "_" + k) == k`, even when `k` contains '_' |
| PrefixedHolder.StoredKeySplits | sample/internal-accessor/src/main/java/com/anggrayudi/hiddenapi/ResourcesHolder.java:328-334 | a prefixed stored key splits back into its prefix name and the caller's key |
| PrefixedHolder.Describe | sample/internal-accessor/src/main/java/com/anggrayudi/hiddenapi/ResourcesHolder.java:257-326 | when `printAll` labels an entry with a kind, that kind's map is the one being printed |
| PrefixedHolder.KindOfOwnTag | sample/internal-accessor/src/main/java/com/anggrayudi/hiddenapi/ResourcesHolder.java:281-325 | each prefix name is a case label of its own map's switch, and that label names its kind. The shared maps are exactly those of the prefixed kinds |
| PrefixedHolder.DescribeRecoversPut | sample/internal-accessor/src/main/java/com/anggrayudi/hiddenapi/ResourcesHolder.java:257-334 | every entry a `put` creates is reported under its own kind and the caller's original key |
| PrefixedHolder.Fields | sample/internal-accessor/src/main/java/com/anggrayudi/hiddenapi/ResourcesHolder.java:370-381 | the ten maps in write order; reading them back in that order rebuilds the same holder state |
| PrefixedHolder.ResourcesHolder.constructor | sample/internal-accessor/src/main/java/com/anggrayudi/hiddenapi/ResourcesHolder.java:336 | a new holder has ten empty maps |
| PrefixedHolder.ResourcesHolder.PutResourceId | sample/internal-accessor/src/main/java/com/anggrayudi/hiddenapi/ResourcesHolder.java:70-73 | returns the same holder; the new state is `Put` of the old under kind ResourceId ("id_" in ints) |
| PrefixedHolder.ResourcesHolder.PutAnim | sample/internal-accessor/src/main/java/com/anggrayudi/hiddenapi/ResourcesHolder.java:75-78 | same holder; the new state is `Put` under Anim ("anim_" in xpps) |
| PrefixedHolder.ResourcesHolder.PutIntArray | sample/internal-accessor/src/main/java/com/anggrayudi/hiddenapi/ResourcesHolder.java:80-83 | same holder; the new state is `Put` under IntArray (bare key in arrayInt) |
| PrefixedHolder.ResourcesHolder.PutStringArray | sample/internal-accessor/src/main/java/com/anggrayudi/hiddenapi/ResourcesHolder.java:85-88 | same holder; the new state is `Put` under StringArray (bare key in arrayString) |
| PrefixedHolder.ResourcesHolder.PutBoolean | sample/internal-accessor/src/main/java/com/anggrayudi/hiddenapi/ResourcesHolder.java:90-93 | same holder; the new state is `Put` under Boolean (bare key in bools) |
| PrefixedHolder.ResourcesHolder.PutColor | sample/internal-accessor/src/main/java/com/anggrayudi/hiddenapi/ResourcesHolder.java:95-98 | same holder; the new state is `Put` under Color ("color_" in ints) |
| PrefixedHolder.ResourcesHolder.PutDimension | sample/internal-accessor/src/main/java/com/anggrayudi/hiddenapi/ResourcesHolder.java:100-103 | same holder; the new state is `Put` under Dimension ("dimen_" in floats) |
| PrefixedHolder.ResourcesHolder.PutDrawable | sample/internal-accessor/src/main/java/com/anggrayudi/hiddenapi/ResourcesHolder.java:105-108 | same holder; the new state is `Put` under Drawable ("drawable_" in drawables) |
| PrefixedHolder.ResourcesHolder.PutFloat | sample/internal-accessor/src/main/java/com/anggrayudi/hiddenapi/ResourcesHolder.java:113-116 | same holder; the new state is `Put` under Float ("float_" in floats) |
| PrefixedHolder.ResourcesHolder.PutFraction | sample/internal-accessor/src/main/java/com/anggrayudi/hiddenapi/ResourcesHolder.java:118-121 | same holder; the new state is `Put` under Fraction ("fraction_" in floats) |
| PrefixedHolder.ResourcesHolder.PutInt | sample/internal-accessor/src/main/java/com/anggrayudi/hiddenapi/ResourcesHolder.java:123-126 | same holder; the new state is `Put` under Int ("int_" in ints) |
| PrefixedHolder.ResourcesHolder.PutLayout | sample/internal-accessor/src/main/java/com/anggrayudi/hiddenapi/ResourcesHolder.java:128-131 | same holder; the new state is `Put` under Layout ("layout_" in xpps) |
| PrefixedHolder.ResourcesHolder.PutMenu | sample/internal-accessor/src/main/java/com/anggrayudi/hiddenapi/ResourcesHolder.java:133-136 | same holder; the new state is `Put` under Menu ("menu_" in xpps) |
| PrefixedHolder.ResourcesHolder.PutMipmap | sample/internal-accessor/src/main/java/com/anggrayudi/hiddenapi/ResourcesHolder.java:138-141 | same holder; the new state is `Put` under Mipmap ("mipmap_" in drawables) |
| PrefixedHolder.ResourcesHolder.PutRaw | sample/internal-accessor/src/main/java/com/anggrayudi/hiddenapi/ResourcesHolder.java:143-146 | same holder; the new state is `Put` under Raw (bare key in streams) |
| PrefixedHolder.ResourcesHolder.PutString | sample/internal-accessor/src/main/java/com/anggrayudi/hiddenapi/ResourcesHolder.java:148-151 | same holder; the new state is `Put` under String (bare key in strings) |
| PrefixedHolder.ResourcesHolder.PutXml | sample/internal-accessor/src/main/java/com/anggrayudi/hiddenapi/ResourcesHolder.java:153-156 | same holder; the new state is `Put` under Xml ("xml_" in xpps) |
| PrefixedHolder.ResourcesHolder.PutObject | sample/internal-accessor/src/main/java/com/anggrayudi/hiddenapi/ResourcesHolder.java:161-164 | same holder; the new state is `Put` under Object (bare key in objects) |
| PrefixedHolder.ResourcesHolder.GetResourceId | sample/internal-accessor/src/main/java/com/anggrayudi/hiddenapi/ResourcesHolder.java:166-168 | agrees with `Get` for ResourceId, so it throws on a missing "id_" entry |
| PrefixedHolder.ResourcesHolder.GetAnim | sample/internal-accessor/src/main/java/com/anggrayudi/hiddenapi/ResourcesHolder.java:170-172 | agrees with `Get` for Anim and never throws |
| PrefixedHolder.ResourcesHolder.GetIntArray | sample/internal-accessor/src/main/java/com/anggrayudi/hiddenapi/ResourcesHolder.java:174-176 | agrees with `Get` for IntArray and never throws |
| PrefixedHolder.ResourcesHolder.GetStringArray | sample/internal-accessor/src/main/java/com/anggrayudi/hiddenapi/ResourcesHolder.java:178-180 | agrees with `Get` for StringArray and never throws |
| PrefixedHolder.ResourcesHolder.GetBoolean | sample/internal-accessor/src/main/java/com/anggrayudi/hiddenapi/ResourcesHolder.java:182-184 | agrees with `Get` for Boolean, so it throws on a missing entry |
| PrefixedHolder.ResourcesHolder.GetColor | sample/internal-accessor/src/main/java/com/anggrayudi/hiddenapi/ResourcesHolder.java:186-188 | agrees with `Get` for Color, so it throws on a missing entry |
| PrefixedHolder.ResourcesHolder.GetDimension | sample/internal-accessor/src/main/java/com/anggrayudi/hiddenapi/ResourcesHolder.java:190-192 | agrees with `Get` for Dimension, so it throws on a missing entry |
| PrefixedHolder.ResourcesHolder.GetDrawable | sample/internal-accessor/src/main/java/com/anggrayudi/hiddenapi/ResourcesHolder.java:194-196 | agrees with `Get` for Drawable and never throws |
| PrefixedHolder.ResourcesHolder.GetFloat | sample/internal-accessor/src/main/java/com/anggrayudi/hiddenapi/ResourcesHolder.java:198-200 | agrees with `Get` for Float, so it throws on a missing entry |
| PrefixedHolder.ResourcesHolder.GetFraction | sample/internal-accessor/src/main/java/com/anggrayudi/hiddenapi/ResourcesHolder.java:202-204 | agrees with `Get` for Fraction, so it throws on a missing entry |
| PrefixedHolder.ResourcesHolder.GetInt | sample/internal-accessor/src/main/java/com/anggrayudi/hiddenapi/ResourcesHolder.java:206-208 | agrees with `Get` for Int, so it throws on a missing entry |
| PrefixedHolder.ResourcesHolder.GetLayout | sample/internal-accessor/src/main/java/com/anggrayudi/hiddenapi/ResourcesHolder.java:210-212 | agrees with `Get` for Layout and never throws |
| PrefixedHolder.ResourcesHolder.GetMenu | sample/internal-accessor/src/main/java/com/anggrayudi/hiddenapi/ResourcesHolder.java:214-216 | agrees with `Get` for Menu and never throws |
| PrefixedHolder.ResourcesHolder.GetMipmap | sample/internal-accessor/src/main/java/com/anggrayudi/hiddenapi/ResourcesHolder.java:218-220 | agrees with `Get` for Mipmap and never throws |
| PrefixedHolder.ResourcesHolder.GetRaw | sample/internal-accessor/src/main/java/com/anggrayudi/hiddenapi/ResourcesHolder.java:222-224 | agrees with `Get` for Raw and never throws |
| PrefixedHolder.ResourcesHolder.GetString | sample/internal-accessor/src/main/java/com/anggrayudi/hiddenapi/ResourcesHolder.java:226-228 | agrees with `Get` for String and never throws |
| PrefixedHolder.ResourcesHolder.GetXml | sample/internal-accessor/src/main/java/com/anggrayudi/hiddenapi/ResourcesHolder.java:230-232 | agrees with `Get` for Xml and never throws |
| PrefixedHolder.ResourcesHolder.GetObject | sample/internal-accessor/src/main/java/com/anggrayudi/hiddenapi/ResourcesHolder.java:234-236 | agrees with `Get` for Object and never throws |
| PrefixedHolder.ResourcesHolder.Clear | sample/internal-accessor/src/main/java/com/anggrayudi/hiddenapi/ResourcesHolder.java:241-252 | all ten maps are emptied |
| PrefixedHolder.ResourcesHolder.WriteToParcel | sample/internal-accessor/src/main/java/com/anggrayudi/hiddenapi/ResourcesHolder.java:370-381 | appends the ten maps, in declaration order |
| PrefixedHolder.ResourcesHolder.FromParcel | sample/internal-accessor/src/main/java/com/anggrayudi/hiddenapi/ResourcesHolder.java:339-350 | reads the next ten values into the ten fields in declaration order, and moves the cursor past them |
| PrefixedHolder.Unbox | sample/internal-accessor/src/main/java/com/anggrayudi/hiddenapi/ResourcesHolder.java:166-208 | unboxing throws exactly on null and otherwise passes the value through |
| PrefixedHolder.ParcelRoundTrip | sample/internal-accessor/src/main/java/com/anggrayudi/hiddenapi/ResourcesHolder.java:339-381 | write, rewind and read gives back the same ten maps, each in its own field |
| JavaString.Trim | sample/internal-accessor/src/main/java/com/anggrayudi/hiddenapi/InternalAccessor.java:68 | `String.trim`: no white space is left at either end, and an already-trimmed string is returned unchanged |
| JavaString.TrimIsSlice | sample/internal-accessor/src/main/java/com/anggrayudi/hiddenapi/InternalAccessor.java:68 | the result of `trim` is the slice of the input between a white-space prefix and a white-space suffix |
| JavaString.TrimOfPadded | sample/internal-accessor/src/main/java/com/anggrayudi/hiddenapi/InternalAccessor.java:68 | `trim` of a word padded with white space on both sides is exactly the word |
| JavaString.TrimIdempotent | sample/internal-accessor/src/main/java/com/anggrayudi/hiddenapi/InternalAccessor.java:68 | trimming twice is trimming once |
| JavaString.ToLowerCase | sample/internal-accessor/src/main/java/com/anggrayudi/hiddenapi/InternalAccessor.java:68 | `String.toLowerCase`: same length; each letter A-Z is mapped to lowercase and every other char is kept, so no uppercase ASCII letter remains |
| JavaString.LowerKeepsTrimmed | sample/internal-accessor/src/main/java/com/anggrayudi/hiddenapi/InternalAccessor.java:68 | lowercasing a trimmed string leaves it trimmed |
| JavaString.LowerWordIsNormal | sample/internal-accessor/src/main/java/com/anggrayudi/hiddenapi/InternalAccessor.java:69-148 | a lowercase word (every case label) is unchanged by `trim().toLowerCase()` |
| JavaString.IndexOf | sample/internal-accessor/src/main/java/com/anggrayudi/hiddenapi/ResourcesHolder.java:328-334 | `indexOf("_")`: -1 exactly when the char is absent, otherwise the position of its first occurrence |
| JavaString.IndexOfShift | sample/internal-accessor/src/main/java/com/anggrayudi/hiddenapi/ResourcesHolder.java:328-334 | with a '_'-free prefix, the first '_' of the whole is found in the rest, shifted by the prefix length |
| JavaString.SubstringFrom | sample/internal-accessor/src/main/java/com/anggrayudi/hiddenapi/ResourcesHolder.java:328-330 | `substring(begin)`: succeeds exactly for 0 <= begin <= length, returning the tail; otherwise it throws StringIndexOutOfBoundsException |
| JavaString.Substring | sample/internal-accessor/src/main/java/com/anggrayudi/hiddenapi/ResourcesHolder.java:332-334 | `substring(begin, end)`: succeeds exactly for 0 <= begin <= end <= length, returning that slice; otherwise it throws StringIndexOutOfBoundsException |
| Platform.Word | sample/internal-accessor/src/main/java/com/anggrayudi/hiddenapi/InternalAccessor.java:69-148 | each R class's simple name is a non-empty word of lowercase ASCII letters |
| Platform.FieldOf | sample/internal-accessor/src/main/java/com/anggrayudi/hiddenapi/InternalAccessor.java:70-151 | a field not in the class's table is reported as missing |
| Platform.Identifier | resources-helper/src/main/java/com/anggrayudi/hiddenapi/InternalAccessor.java:106-108 | a name unknown to `getIdentifier` answers 0 |
| IdentifierAccessor.Constant | resources-helper/src/main/java/com/anggrayudi/hiddenapi/InternalAccessor.java:51-91 | each of the 21 constants equals its R class's name; it is lowercase and already trimmed |
| IdentifierAccessor.NotFoundMessage | resources-helper/src/main/java/com/anggrayudi/hiddenapi/InternalAccessor.java:106-112 | the not-found text quotes the category and then the resource name |
| IdentifierAccessor.GetResourceId | resources-helper/src/main/java/com/anggrayudi/hiddenapi/InternalAccessor.java:106-112 | never returns 0. A zero lookup throws NotFoundException naming the category and the name; a nonzero id is returned unchanged |
| IdentifierAccessor.GetterTable | resources-helper/src/main/java/com/anggrayudi/hiddenapi/InternalAccessor.java:120-276 | `getIntArray` and `getStringArray` use ARRAY. `getMenu` uses MENU but loads like `getLayout`. Both `getMipmap` overloads use MIPMAP and load like the matching `getDrawable` |
| IdentifierAccessor.Fetch | resources-helper/src/main/java/com/anggrayudi/hiddenapi/InternalAccessor.java:120-276 | a name unknown under the getter's constant throws before any loader runs; otherwise the getter's loader receives the nonzero id |
| IdentifierAccessor.Builder.constructor | resources-helper/src/main/java/com/anggrayudi/hiddenapi/InternalAccessor.java:355-369 | records the flag and creates a fresh, empty holder |
| IdentifierAccessor.Builder.GetResourcesHolder | resources-helper/src/main/java/com/anggrayudi/hiddenapi/InternalAccessor.java:371-373 | returns the one holder instance on every call |
| IdentifierAccessor.Builder.Get | resources-helper/src/main/java/com/anggrayudi/hiddenapi/InternalAccessor.java:378-526 | returns what the static getter returned. With saving on and a value returned, the holder maps `resName` to it and nothing else changes. When saving is off or the getter threw, the holder is unchanged |
| IdentifierAccessor.GetTwice | resources-helper/src/main/java/com/anggrayudi/hiddenapi/InternalAccessor.java:378-526 | two saving `get`s under one name leave only the second value (the first if the second threw), whatever the two kinds |
| ReflectiveAccessor.Normalize | sample/internal-accessor/src/main/java/com/anggrayudi/hiddenapi/InternalAccessor.java:68 | `trim().toLowerCase()`: no longer than the input, no uppercase ASCII letter, no white space at either end |
| ReflectiveAccessor.NormalizePadded | sample/internal-accessor/src/main/java/com/anggrayudi/hiddenapi/InternalAccessor.java:68-69 | any spelling of a class name with other ASCII letter case and white space around it normalises to the name itself |
| ReflectiveAccessor.PaddedSpellingResolves | sample/internal-accessor/src/main/java/com/anggrayudi/hiddenapi/InternalAccessor.java:65-153 | so `getResourceId` of such a spelling resolves exactly as the class name does |
| ReflectiveAccessor.NormalizeIdempotent | sample/internal-accessor/src/main/java/com/anggrayudi/hiddenapi/InternalAccessor.java:68 | normalising twice is normalising once |
| ReflectiveAccessor.Parse | sample/internal-accessor/src/main/java/com/anggrayudi/hiddenapi/InternalAccessor.java:69-148 | a matched case label is the word of the category it selects |
| ReflectiveAccessor.ParseWord | sample/internal-accessor/src/main/java/com/anggrayudi/hiddenapi/InternalAccessor.java:69-148 | a string selects category `c` exactly when it is `c`'s word, so all 21 classes have a case |
| ReflectiveAccessor.WordInjective | sample/internal-accessor/src/main/java/com/anggrayudi/hiddenapi/InternalAccessor.java:69-148 | distinct categories have distinct case labels |
| ReflectiveAccessor.MinSdk | sample/internal-accessor/src/main/java/com/anggrayudi/hiddenapi/InternalAccessor.java:91-141 | exactly fraction, menu, mipmap, interpolator and transition have a minimum API level |
| ReflectiveAccessor.UnavailableMessage | sample/internal-accessor/src/main/java/com/anggrayudi/hiddenapi/InternalAccessor.java:91-141 | the gate's ClassNotFoundException text names the R class |
| ReflectiveAccessor.ErrorMessage | sample/internal-accessor/src/main/java/com/anggrayudi/hiddenapi/InternalAccessor.java:326-329 | `errorMessage(type, name)` quotes the category and then the name |
| ReflectiveAccessor.GetResourceId | sample/internal-accessor/src/main/java/com/anggrayudi/hiddenapi/InternalAccessor.java:65-153 | throws only ClassNotFoundException (checked), ResourceNotFoundException (unchecked) and the uncaught IllegalArgumentException of `getInt` |
| ReflectiveAccessor.Resolve | sample/android-hidden-api/src/main/java/com/anggrayudi/hiddenapi/InternalAccessor.java:80-163 | the switch and its catches, on the normalised category, throw only the two declared exceptions or IllegalArgumentException. IllegalArgumentException is thrown exactly when the category is known and not gated out, and its field is not an int |
| ReflectiveAccessor.UnknownCategoryIsZero | sample/internal-accessor/src/main/java/com/anggrayudi/hiddenapi/InternalAccessor.java:66-69 | a category whose normal form is none of the 21 words resolves to 0 without throwing |
| ReflectiveAccessor.Gates | sample/internal-accessor/src/main/java/com/anggrayudi/hiddenapi/InternalAccessor.java:91-141 | ClassNotFoundException is thrown exactly for fraction, menu or mipmap below API 11, and interpolator or transition below API 21 |
| ReflectiveAccessor.UnavailableLevels | sample/internal-accessor/src/main/java/com/anggrayudi/hiddenapi/InternalAccessor.java:91-141 | a class is gated out exactly below 11 for fraction, menu and mipmap, and below 21 for interpolator and transition |
| ReflectiveAccessor.FieldOutcomes | sample/internal-accessor/src/main/java/com/anggrayudi/hiddenapi/InternalAccessor.java:70-152 | past the gate: a present field gives its id; a missing field throws ResourceNotFoundException with the normalised category; NoClassDefFoundError and IllegalAccessException give 0; a field that is not an int lets IllegalArgumentException out |
| ReflectiveAccessor.MessageQuotesNormalized | sample/internal-accessor/src/main/java/com/anggrayudi/hiddenapi/InternalAccessor.java:149-150 | the not-found message is built from the normalised category, not from the caller's spelling |
| ReflectiveAccessor.ResolveMessage | sample/android-hidden-api/src/main/java/com/anggrayudi/hiddenapi/InternalAccessor.java:160-161 | a ResourceNotFoundException carries `errorMessage` of the category it was resolving |
| ReflectiveAccessor.NormalizedCategoryResolvesAlike | sample/android-hidden-api/src/main/java/com/anggrayudi/hiddenapi/InternalAccessor.java:79 | resolution sees the category only through its normal form |
| ReflectiveAccessor.WordOf | sample/internal-accessor/src/main/java/com/anggrayudi/hiddenapi/InternalAccessor.java:160-324 | each context getter passes a lowercase word that is one of the case labels |
| ReflectiveAccessor.GetterWordsResolve | sample/internal-accessor/src/main/java/com/anggrayudi/hiddenapi/InternalAccessor.java:160-324 | the getters' words are already normal and resolve. Both array getters use "array", and `getMenu` uses "menu" |
| ReflectiveAccessor.CatchClassNotFound | sample/android-hidden-api/src/main/java/com/anggrayudi/hiddenapi/InternalAccessor.java:171-320 | a ClassNotFoundException becomes the default, and any other outcome passes through |
| ReflectiveAccessor.Fetch | sample/internal-accessor/src/main/java/com/anggrayudi/hiddenapi/InternalAccessor.java:160-324 | a gate failure gives the getter's default (false, 0 or null). ResourceNotFoundException and IllegalArgumentException propagate. Otherwise the loader runs on the resolved id. No ClassNotFoundException escapes |
| ReflectiveAccessor.CategoryOf | sample/internal-accessor/src/main/java/com/anggrayudi/hiddenapi/InternalAccessor.java:160-324 | the R class a getter resolves under is the one its word names |
| ReflectiveAccessor.GatedGetterYieldsDefault | sample/internal-accessor/src/main/java/com/anggrayudi/hiddenapi/InternalAccessor.java:160-324 | a getter whose class is gated out on the device's API level returns its default instead of throwing |
| HiddenApiBuilder.Builder.constructor | sample/android-hidden-api/src/main/java/com/anggrayudi/hiddenapi/InternalAccessor.java:386-398 | records the context and the flag, and creates a fresh, empty holder |
| HiddenApiBuilder.Builder.GetResourcesHolder | sample/android-hidden-api/src/main/java/com/anggrayudi/hiddenapi/InternalAccessor.java:400-402 | returns the one holder instance on every call |
| HiddenApiBuilder.Builder.Get | sample/android-hidden-api/src/main/java/com/anggrayudi/hiddenapi/InternalAccessor.java:407-555 | returns the context getter's result unchanged. `holder.put(resName, v)` runs exactly when saving is on and the getter returned. A throwing lookup leaves the holder untouched |
| HiddenApiBuilder.GetGatedOut | sample/android-hidden-api/src/main/java/com/anggrayudi/hiddenapi/InternalAccessor.java:458-509 | a saving `get` of a class gated out on the device returns the default and records that default under the name |

## Left out

- The Android platform is an oracle (the `Platform.Resources` value):
  - reflection on `com.android.internal.R`, `getIdentifier`;
  - the resource loaders (`getBoolean`, `getDrawable`, `ContextCompat.getDrawable`, `context.getString`, ...);
  - `Build.VERSION.SDK_INT`.
- A `NoClassDefFoundError` from loading an R class is modelled only as one of the outcomes of the field table. The static initialisers themselves are not modelled.
- `isClassExists` and `isMethodExists` are not modelled. They are class-loader reflection with no logic of the repository's own.
- `printAll` in both holders is logging only.
  - Of the internal-accessor version, only the key decoding is modelled (`Describe`, with `getPre`/`removePre`), not the `TreeMap` copies or the output. Those copies throw NullPointerException on a null key.
  - The resources-helper version and the `Log.e` calls in `isCompatibleCast` are not modelled.
- `sendBroadcast` and `sendViaLocalBroadcastManager` are Intent transport and are not modelled.
- The parcel is a list of values with a cursor; the real `writeValue`/`readValue` encoding and `CREATOR.newArray` are not modelled.
- TypedHolder.ParcelRoundTrip: the round trip holds only in this list-of-values parcel. A real `writeValue` throws "unable to marshal value" for Drawable, XmlResourceParser and InputStream values.
- PrefixedHolder.ParcelRoundTrip: likewise. A real parcel cannot write the internal-accessor holder at all once `xpps`, `drawables` or `streams` is non-empty.
- PrefixedHolder.ResourcesHolder.FromParcel: requires ten values after the cursor. A truncated parcel is not modelled.
- TypedHolder.ResourcesHolder.FromParcel: requires a value under the cursor, for the same reason.
- PrefixedHolder.ResourcesHolder.FromParcel: the unchecked casts are not modelled. A parcel that carries a map of the wrong value type would later raise ClassCastException in a getter; here it is read back as is.
- Floats and doubles are opaque bit patterns. No arithmetic is done on them, so `TypedHolder.ResourcesHolder.GetAsFloat` and `GetAsDouble` give the default as the all-zero pattern (+0.0).
- `toLowerCase` is modelled for ASCII letters only, and `trim` as removing chars up to U+0020. Locale-dependent and non-ASCII case mapping is not modelled.
- TypedHolder.ResourcesHolder.KeySet: returns a snapshot. The live view of the Java `keySet()` is not modelled.
- TypedHolder.ResourcesHolder.ValueSet: likewise returns a snapshot, not the live `entrySet()` view.
- TypedHolder.ResourcesHolder.Sort: also, a hash map has no order, so the model states only that the mapping is unchanged. The `TreeMap` iteration order used by `putAll` is not modelled.
- IdentifierAccessor.Builder.Get: covers the fifteen unthemed getters of the `Builder`. The themed static `getDrawable`/`getMipmap` overloads are modelled in `IdentifierAccessor.Fetch` only, because the `Builder` has no themed methods.
- HiddenApiBuilder.Builder.Get: the android-hidden-api sample's own `ResourcesHolder` is not part of this model. Its `put(resName, v)` is taken to be a plain map update, so the resources-helper holder stands in for it.
- Null keys are modelled only by `NullableStoredKey` and `NullKeyCollides`. Neither holder's `put`/`get` annotates its key, and `HashMap` accepts a null key. Everywhere else a key is a plain character sequence. The accessors' `clas` and `resName` are `@NonNull`.
- StoredKeyInjective: holds for non-null keys only. For a prefixed kind, `put<Kind>(null, v)` and `put<Kind>("null", v)` write one entry (`NullKeyCollides`).
- StoredKeysDiffer: holds for non-null keys only, for the same reason.
- PutTouchesOneEntry: holds for non-null keys only. A put under a null key changes the entry that the key "null" reads.
- PutIsolated: holds for non-null keys only, for the same reason.
- TypedHolder.ResourcesHolder.Sort: the model returns normally for every map. The source's `new TreeMap<>(mValues)` throws NullPointerException when a null key is present.
- The sample app (`MainActivity`, `Adapter`, `Receiver`, `App`) is not part of this model.
- `ResourceNotFoundException.java` is not modelled beyond its name and message: it is a one-constructor exception class.

## Findings

| source | as written | input that shows it | evidently intended | confidence | as-written member | corrected member |
|---|---|---|---|---|---|---|
| resources-helper/src/main/java/com/anggrayudi/hiddenapi/ResourcesHolder.java:370 | `mValues.get(key) instanceof Number && obj == null` tests one value twice, so it can never be true. A null or absent value passes `isCompatibleCast`, and the primitive reader then unboxes null | `new ResourcesHolder().getAsInteger("k")` throws NullPointerException | the guard's log message says "Cannot cast null value to a ... number format" and returns false. So a null read through a number class should answer the reader's default 0 | medium; not executed | TypedHolder.AbsentNumberCounterexample | TypedHolder.ResourcesHolder.IntendedGetAsNumber |
