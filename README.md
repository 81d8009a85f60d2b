# IdentityProvider record (tiqr authenticator) in Dafny

This project models `IdentityProvider`, the record the tiqr Android
authenticator keeps for each trusted authentication service. The record holds:

- a storage row id, where `-1` means "not inserted yet";
- an identifier, a display name, an authentication URL and an info URL;
- the raw logo bytes and a lazily decoded logo bitmap cached beside them;
- an optional OCRA suite, with the default `OCRA-1:HOTP-SHA1-6:QN10` for legacy servers.

The record is an Android `Parcelable`. It writes its eight fields to a
`Parcel` and is rebuilt from one.

Layout:

- `platform.dfy`: `Wrappers.Option` (Java's nullable references) and
  `Platform`. `Platform` holds Java `long` and `byte` as bounded newtypes, an
  opaque `Bitmap` handle, and the `Decoder` type for `BitmapFactory.decodeByteArray`.
- `parcel.dfy`: `Parcels.Parcel` is a class holding a sequence of tagged entries
  and a read cursor. Writes append an entry. Reads require an entry of their
  own kind at the cursor and advance it. `SetDataPosition` moves the cursor,
  which lets a written parcel be read back from the start.
- `identity_provider.dfy`: `IdentityProviders`. It has the class
  `IdentityProvider` with the source's eight fields, its getters, setters, the
  logo cache and the parcel methods. It also has a value view `Record` of those
  fields, reached through `State()`. On `Record` it defines the parcel layout
  (`WireImage`, `Unparcel`) and the effect of each call (`Step`, and `Run` for a
  sequence of calls). Lemmas about these carry the multi-call properties: cache
  coherence, no stale bitmap, the default suite and the round trip.

The image decoder is a foreign library, so `GetLogoBitmap` takes it as a
parameter `decode: Decoder`. `decode` is any total function from bytes to an
optional bitmap. A `None` result stands for `BitmapFactory` returning null.

On three points the model follows what the code does:

- The cached bitmap is part of the parcel stream (`IdentityProvider.java` lines
  52 and 75). It is not re-derived after reading.
- Only a null suite selects the default. An empty suite string is returned as is.
- Reading a parcel has no error path in the code. The model
  makes the right layout at the cursor a precondition of `FromParcel`.
  `Unparcel` returns `None` for any other layout.

## Model

| member | source | states |
|---|---|---|
| `IdentityProviders.EffectiveSuite` | shared/src/main/java/org/tiqr/authenticator/datamodel/IdentityProvider.java:209-214 | a non-null stored suite (the empty string included) is the effective one; null gives exactly `DEFAULT_OCRA_SUITE` |
| `IdentityProviders.IdentityProvider.GetOCRASuite` | shared/src/main/java/org/tiqr/authenticator/datamodel/IdentityProvider.java:209-214 | returns the effective suite of the stored value, which is the stored value whenever it is non-null |
| `IdentityProviders.IdentityProvider.constructor` | shared/src/main/java/org/tiqr/authenticator/datamodel/IdentityProvider.java:12-42 | a fresh record has id `-1`, every other field null, and its suite reads as `"OCRA-1:HOTP-SHA1-6:QN10"` |
| `IdentityProviders.WireImage` | shared/src/main/java/org/tiqr/authenticator/datamodel/IdentityProvider.java:70-79 | the image has exactly eight entries of kinds long, string, string, byte array, parcelable, string, string, string |
| `IdentityProviders.IdentityProvider.WriteToParcel` | shared/src/main/java/org/tiqr/authenticator/datamodel/IdentityProvider.java:70-79 | appends exactly the record's wire image (id, identifier, displayName, logoData, logoBitmap, authenticationURL, infoURL, ocraSuite) and moves neither the cursor nor any field |
| `IdentityProviders.Unparcel` | shared/src/main/java/org/tiqr/authenticator/datamodel/IdentityProvider.java:47-56 | succeeds exactly when the eight entries at the cursor have the writer's layout; what it reads re-encodes to exactly those eight entries |
| `IdentityProviders.IdentityProvider.FromParcel` | shared/src/main/java/org/tiqr/authenticator/datamodel/IdentityProvider.java:47-56 | the new record's fields are what `Unparcel` reads at the cursor; the cursor advances by eight and the entries stay the same |
| `IdentityProviders.UnparcelWireImage` | shared/src/main/java/org/tiqr/authenticator/datamodel/IdentityProvider.java:47-79 | reading what was written rebuilds all eight fields, nulls and the cached bitmap included, whatever entries come before or after |
| `IdentityProviders.RoundTripThroughParcel` | shared/src/main/java/org/tiqr/authenticator/datamodel/IdentityProvider.java:28-79 | writing a record to a new parcel, rewinding it and building a record from it gives a record with the same eight fields |
| `IdentityProviders.UnparcelKeepsCacheCoherent` | shared/src/main/java/org/tiqr/authenticator/datamodel/IdentityProvider.java:47-79 | since the bitmap travels in the parcel, a record whose cache matches its bytes is rebuilt with a cache that still matches |
| `IdentityProviders.Step` | shared/src/main/java/org/tiqr/authenticator/datamodel/IdentityProvider.java:88-218 | a call fails (NullPointerException) exactly when it is getLogoBitmap with neither a cached bitmap nor logo bytes; getLogoBitmap changes at most the cache |
| `IdentityProviders.RunKeepsCacheCoherent` | shared/src/main/java/org/tiqr/authenticator/datamodel/IdentityProvider.java:151-170 | no sequence of calls lets a cached bitmap differ from the decode of the logo bytes held at that moment |
| `IdentityProviders.LogoBitmapIsOfCurrentBytes` | shared/src/main/java/org/tiqr/authenticator/datamodel/IdentityProvider.java:151-170 | after any calls on a fresh record, getLogoBitmap on non-empty logo bytes yields their decode, never a bitmap of earlier bytes |
| `IdentityProviders.SetLogoDataThenGetLogoBitmap` | shared/src/main/java/org/tiqr/authenticator/datamodel/IdentityProvider.java:151-170 | setLogoData(b) then getLogoBitmap caches and returns decode(b) for non-empty b and nothing for empty b, whatever was cached before |
| `IdentityProviders.GetLogoBitmapIdempotent` | shared/src/main/java/org/tiqr/authenticator/datamodel/IdentityProvider.java:161-170 | a second getLogoBitmap leaves the record as the first one left it |
| `IdentityProviders.ClearingSuiteRestoresDefault` | shared/src/main/java/org/tiqr/authenticator/datamodel/IdentityProvider.java:209-218 | setOCRASuite(s) then setOCRASuite(null) leaves no explicit suite, so the default is in effect again |
| `IdentityProviders.SetInfoURLIsNoOp` | shared/src/main/java/org/tiqr/authenticator/datamodel/IdentityProvider.java:200-202 | setInfoURL leaves every record exactly as it was |
| `IdentityProviders.SetInfoURLDropsItsArgument` | shared/src/main/java/org/tiqr/authenticator/datamodel/IdentityProvider.java:200-202 | a fresh record given setInfoURL("https://idp.example/info") still has a null info URL |
| `IdentityProviders.IdentityProvider.SetId` | shared/src/main/java/org/tiqr/authenticator/datamodel/IdentityProvider.java:88-99 | only the id changes, and getId then returns exactly the value passed |
| `IdentityProviders.IdentityProvider.SetIdentifier` | shared/src/main/java/org/tiqr/authenticator/datamodel/IdentityProvider.java:106-117 | only the identifier changes, and getIdentifier then returns exactly the value passed |
| `IdentityProviders.IdentityProvider.SetDisplayName` | shared/src/main/java/org/tiqr/authenticator/datamodel/IdentityProvider.java:124-135 | only the display name changes, and getDisplayName then returns exactly the value passed |
| `IdentityProviders.IdentityProvider.SetLogoData` | shared/src/main/java/org/tiqr/authenticator/datamodel/IdentityProvider.java:142-154 | the logo bytes become the value passed, the cached bitmap is cleared, and nothing else changes |
| `IdentityProviders.IdentityProvider.GetLogoBitmap` | shared/src/main/java/org/tiqr/authenticator/datamodel/IdentityProvider.java:161-170 | returns a cached bitmap unchanged; otherwise stores and returns decode(bytes) for non-empty bytes, and returns nothing for empty bytes; only the cache changes; requires what avoids the NullPointerException |
| `IdentityProviders.IdentityProvider.SetAuthenticationURL` | shared/src/main/java/org/tiqr/authenticator/datamodel/IdentityProvider.java:177-188 | only the authentication URL changes, and getAuthenticationURL then returns exactly the value passed |
| `IdentityProviders.IdentityProvider.SetInfoURL` | shared/src/main/java/org/tiqr/authenticator/datamodel/IdentityProvider.java:193-202 | as written: the record is left unchanged, so getInfoURL keeps returning its previous value |
| `IdentityProviders.IdentityProvider.SetInfoURLAsIntended` | shared/src/main/java/org/tiqr/authenticator/datamodel/IdentityProvider.java:193-202 | corrected: only the info URL changes, and getInfoURL then returns exactly the value passed |
| `IdentityProviders.IdentityProvider.SetOCRASuite` | shared/src/main/java/org/tiqr/authenticator/datamodel/IdentityProvider.java:209-218 | only the stored suite changes; getOCRASuite then returns its effective suite (the default after null) |
| `Parcels.Parcel.WriteLong` | shared/src/main/java/org/tiqr/authenticator/datamodel/IdentityProvider.java:71 | appends one long entry; the cursor stays |
| `Parcels.Parcel.WriteString` | shared/src/main/java/org/tiqr/authenticator/datamodel/IdentityProvider.java:72-78 | appends one nullable string entry; the cursor stays |
| `Parcels.Parcel.WriteByteArray` | shared/src/main/java/org/tiqr/authenticator/datamodel/IdentityProvider.java:74 | appends one nullable byte-array entry; the cursor stays |
| `Parcels.Parcel.WriteParcelable` | shared/src/main/java/org/tiqr/authenticator/datamodel/IdentityProvider.java:75 | appends one nullable bitmap entry; the cursor stays |
| `Parcels.Parcel.ReadLong` | shared/src/main/java/org/tiqr/authenticator/datamodel/IdentityProvider.java:48 | returns the long at the cursor and advances it by one |
| `Parcels.Parcel.ReadString` | shared/src/main/java/org/tiqr/authenticator/datamodel/IdentityProvider.java:49-55 | returns the nullable string at the cursor and advances it by one |
| `Parcels.Parcel.CreateByteArray` | shared/src/main/java/org/tiqr/authenticator/datamodel/IdentityProvider.java:51 | returns the nullable byte array at the cursor and advances it by one |
| `Parcels.Parcel.ReadParcelable` | shared/src/main/java/org/tiqr/authenticator/datamodel/IdentityProvider.java:52 | returns the nullable bitmap at the cursor and advances it by one |

The plain getters (`GetId`, `GetIdentifier`, `GetDisplayName`, `GetLogoData`,
`GetAuthenticationURL`, `GetInfoURL`) are functions that return their field.
The setter rows above state what each of them then returns.

Every method of the class that changes a record also ensures that its effect
is the matching `Step` case, for any decoder, or for the decoder passed in the
case of `GetLogoBitmap`. The lemmas about `Step` and `Run` therefore hold for
the class as well.

## Left out

- Android `Parcel` marshalling is not modelled. That covers binary layout, UTF-16
  strings, alignment, class loaders and reads past the end. A parcel is a
  sequence of tagged entries, and a read requires an entry of its kind at the cursor.
- `CREATOR.newArray` and `describeContents` are platform boilerplate with no behaviour to state.
- `BitmapFactory` and `Bitmap` internals are a foreign library. A bitmap is an
  opaque handle. The decoder is a pure function passed in, so decoding the same
  bytes twice gives the same value, whereas on Android it gives two distinct objects.
- Aliasing of the `byte[]` logo array is not modelled. Java stores and returns
  the caller's array, and a caller that mutates it afterwards can make the cache
  stale. The model holds bytes as an immutable sequence.
- Thread safety of the lazy cache is not modelled: nothing in the code synchronises it.
- The OCRA/HOTP computation is not part of the record, which only carries the suite name.
- `flags` in `WriteToParcel` is accepted and ignored, as in the code.
- `IdentityProviders.IdentityProvider.GetLogoBitmap` requires a cached bitmap
  or non-null logo bytes. Without either, the code throws a
  NullPointerException. `IdentityProviders.Step` returns `None` for that case.

## Findings

| source | as written | input that shows it | evidently intended | confidence | as-written member | corrected member |
|---|---|---|---|---|---|---|
| shared/src/main/java/org/tiqr/authenticator/datamodel/IdentityProvider.java:200-201 | the parameter `_infoURL` shadows the field, so `_infoURL = _infoURL` assigns the parameter to itself and the field never changes | `setInfoURL("https://idp.example/info")` on a fresh record; `getInfoURL()` still returns null | store the argument in the field, as every other setter does | high (not executed) | `IdentityProviders.SetInfoURLDropsItsArgument` | `IdentityProviders.IdentityProvider.SetInfoURLAsIntended` |

The call-sequence model (`Step`, `Run`) follows the shipped code. In it,
`SetInfoURL` changes nothing, and `IdentityProvider.SetInfoURL` does the same.
