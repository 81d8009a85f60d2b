/**
 * The identity-provider record of the tiqr authenticator: the metadata of one
 * trusted authentication service, its lazily decoded logo, its OCRA suite
 * with a legacy default, and its parcel serialisation.
 */
module IdentityProviders {
  import opened Wrappers
  import opened Platform
  import opened Parcels

  /** The suite assumed for servers that do not name one (SHA-1, 6 digits, numeric challenge). */
  const DEFAULT_OCRA_SUITE: string := "OCRA-1:HOTP-SHA1-6:QN10"

  /** The row id of a record that has not been inserted into storage yet. */
  const NOT_INSERTED: Long := -1

  /** The eight fields of a record, `None` standing for Java's null. */
  datatype Record = Record(
    id: Long,
    identifier: Option<string>,
    displayName: Option<string>,
    logoData: Option<seq<Byte>>,
    logoBitmap: Option<Bitmap>,
    authenticationURL: Option<string>,
    infoURL: Option<string>,
    ocraSuite: Option<string>)

  /** What `new IdentityProvider()` holds. */
  const Blank: Record := Record(NOT_INSERTED, None, None, None, None, None, None, None)

  // ---------------------------------------------------------------------------
  // OCRA suite policy

  /** The suite in effect: the stored one whenever it is non-null, even if empty. */
  function EffectiveSuite(stored: Option<string>): (suite: string)
    ensures stored.Some? ==> suite == stored.value
    ensures stored.None? ==> suite == DEFAULT_OCRA_SUITE
  {
    match stored
    case None => DEFAULT_OCRA_SUITE
    case Some(s) => s
  }

  // ---------------------------------------------------------------------------
  // Parcel layout

  /** Eight entries with the kinds writeToParcel uses, in its order. */
  predicate RecordLayout(window: seq<Entry>) {
    |window| == 8 &&
    window[0].LongEntry? &&
    window[1].StringEntry? && window[2].StringEntry? &&
    window[3].ByteArrayEntry? &&
    window[4].ParcelableEntry? &&
    window[5].StringEntry? && window[6].StringEntry? && window[7].StringEntry?
  }

  /** The entries writeToParcel appends for a record. */
  function WireImage(r: Record): (image: seq<Entry>)
    ensures RecordLayout(image)
  {
    [LongEntry(r.id),
     StringEntry(r.identifier),
     StringEntry(r.displayName),
     ByteArrayEntry(r.logoData),
     ParcelableEntry(r.logoBitmap),
     StringEntry(r.authenticationURL),
     StringEntry(r.infoURL),
     StringEntry(r.ocraSuite)]
  }

  /**
   * The record the parcel constructor reads from `s` starting at `at`, or
   * `None` when the entries there do not have the layout it reads.
   */
  function Unparcel(s: seq<Entry>, at: nat): (r: Option<Record>)
    ensures r.Some? <==> at + 8 <= |s| && RecordLayout(s[at..at + 8])
    ensures r.Some? ==> WireImage(r.value) == s[at..at + 8]
  {
    if at + 8 <= |s| && RecordLayout(s[at..at + 8]) then
      Some(Record(
        s[at].longValue,
        s[at + 1].stringValue,
        s[at + 2].stringValue,
        s[at + 3].bytes,
        s[at + 4].bitmap,
        s[at + 5].stringValue,
        s[at + 6].stringValue,
        s[at + 7].stringValue))
    else
      None
  }

  /** Reading back what was written rebuilds every field, whatever surrounds it. */
  lemma UnparcelWireImage(r: Record, before: seq<Entry>, after: seq<Entry>)
    ensures Unparcel(before + WireImage(r) + after, |before|) == Some(r)
  {
  }

  // ---------------------------------------------------------------------------
  // A record seen through the calls made on it

  /** One call on a record that may change it. */
  datatype Call =
    | SetId(newId: Long)
    | SetIdentifier(newIdentifier: Option<string>)
    | SetDisplayName(newDisplayName: Option<string>)
    | SetLogoData(newLogoData: Option<seq<Byte>>)
    | GetLogoBitmap
    | SetAuthenticationURL(newAuthenticationURL: Option<string>)
    | SetInfoURL(newInfoURL: Option<string>)
    | SetOCRASuite(newOCRASuite: Option<string>)

  /**
   * The record after one call, or `None` when the call throws: getLogoBitmap
   * reads the length of the logo bytes when nothing is cached, and those may
   * be null.
   */
  function Step(r: Record, c: Call, decode: Decoder): (next: Option<Record>)
    ensures next.None? <==> c.GetLogoBitmap? && r.logoBitmap.None? && r.logoData.None?
    ensures c.GetLogoBitmap? && next.Some? ==> next.value.(logoBitmap := r.logoBitmap) == r
  {
    match c
    case SetId(v) => Some(r.(id := v))
    case SetIdentifier(v) => Some(r.(identifier := v))
    case SetDisplayName(v) => Some(r.(displayName := v))
    case SetLogoData(v) => Some(r.(logoData := v, logoBitmap := None))
    case GetLogoBitmap =>
      if r.logoBitmap.Some? then Some(r)
      else if r.logoData.None? then None
      else if |r.logoData.value| > 0 then Some(r.(logoBitmap := decode(r.logoData.value)))
      else Some(r)
    case SetAuthenticationURL(v) => Some(r.(authenticationURL := v))
    case SetInfoURL(_) => Some(r)
    case SetOCRASuite(v) => Some(r.(ocraSuite := v))
  }

  /** The record after a sequence of calls, or `None` if one of them throws. */
  function Run(r: Record, calls: seq<Call>, decode: Decoder): Option<Record>
    decreases |calls|
  {
    if calls == [] then Some(r)
    else
      match Step(r, calls[0], decode)
      case None => None
      case Some(next) => Run(next, calls[1..], decode)
  }

  /** A cached bitmap is always the decode of the logo bytes currently held. */
  ghost predicate CacheCoherent(r: Record, decode: Decoder) {
    r.logoBitmap.Some? ==> r.logoData.Some? && decode(r.logoData.value) == r.logoBitmap
  }

  /** No sequence of calls can make the cache stale. */
  lemma {:induction false} RunKeepsCacheCoherent(r: Record, calls: seq<Call>, decode: Decoder)
    requires CacheCoherent(r, decode)
    ensures Run(r, calls, decode).Some? ==> CacheCoherent(Run(r, calls, decode).value, decode)
    decreases |calls|
  {
    if calls != [] {
      match Step(r, calls[0], decode)
      case None =>
      case Some(next) => RunKeepsCacheCoherent(next, calls[1..], decode);
    }
  }

  /**
   * Whatever was done to a fresh record, getLogoBitmap on non-empty logo bytes
   * gives their decode: never a bitmap of bytes held earlier.
   */
  lemma LogoBitmapIsOfCurrentBytes(calls: seq<Call>, decode: Decoder)
    requires Run(Blank, calls, decode).Some?
    requires Run(Blank, calls, decode).value.logoData.Some?
    requires |Run(Blank, calls, decode).value.logoData.value| > 0
    ensures Step(Run(Blank, calls, decode).value, GetLogoBitmap, decode).Some?
    ensures Step(Run(Blank, calls, decode).value, GetLogoBitmap, decode).value.logoBitmap
         == decode(Run(Blank, calls, decode).value.logoData.value)
  {
    RunKeepsCacheCoherent(Blank, calls, decode);
  }

  /**
   * setLogoData then getLogoBitmap decodes the new bytes, or gives no bitmap
   * for empty bytes, whatever was cached before.
   */
  lemma SetLogoDataThenGetLogoBitmap(r: Record, bytes: seq<Byte>, decode: Decoder)
    ensures Run(r, [SetLogoData(Some(bytes)), GetLogoBitmap], decode)
         == Some(r.(logoData := Some(bytes), logoBitmap := if |bytes| > 0 then decode(bytes) else None))
  {
    var calls := [SetLogoData(Some(bytes)), GetLogoBitmap];
    var cleared := r.(logoData := Some(bytes), logoBitmap := None);
    assert calls[1..] == [GetLogoBitmap];
    assert Run(r, calls, decode) == Run(cleared, [GetLogoBitmap], decode);
    assert Run(cleared, [GetLogoBitmap], decode) == Step(cleared, GetLogoBitmap, decode);
  }

  /** A second getLogoBitmap finds the state the first one left and changes nothing. */
  lemma GetLogoBitmapIdempotent(r: Record, decode: Decoder)
    requires Step(r, GetLogoBitmap, decode).Some?
    ensures Step(Step(r, GetLogoBitmap, decode).value, GetLogoBitmap, decode)
         == Step(r, GetLogoBitmap, decode)
  {
  }

  /** setOCRASuite(s) then setOCRASuite(null) brings back the default suite. */
  lemma ClearingSuiteRestoresDefault(r: Record, s: string, decode: Decoder)
    ensures Run(r, [SetOCRASuite(Some(s)), SetOCRASuite(None)], decode) == Some(r.(ocraSuite := None))
    ensures EffectiveSuite(Run(r, [SetOCRASuite(Some(s)), SetOCRASuite(None)], decode).value.ocraSuite)
         == DEFAULT_OCRA_SUITE
  {
    var calls := [SetOCRASuite(Some(s)), SetOCRASuite(None)];
    var explicit := r.(ocraSuite := Some(s));
    assert calls[1..] == [SetOCRASuite(None)];
    assert Run(r, calls, decode) == Run(explicit, [SetOCRASuite(None)], decode);
    assert Run(explicit, [SetOCRASuite(None)], decode) == Step(explicit, SetOCRASuite(None), decode);
  }

  /** setInfoURL never changes a record. */
  lemma SetInfoURLIsNoOp(r: Record, u: Option<string>, decode: Decoder)
    ensures Step(r, SetInfoURL(u), decode) == Some(r)
  {
  }

  /** A concrete instance: a fresh record keeps a null info URL after setInfoURL. */
  lemma SetInfoURLDropsItsArgument(decode: Decoder)
    ensures Step(Blank, SetInfoURL(Some("https://idp.example/info")), decode).value.infoURL == None
  {
  }

  /** The cached bitmap travels in the parcel, so a coherent record arrives coherent. */
  lemma UnparcelKeepsCacheCoherent(r: Record, before: seq<Entry>, after: seq<Entry>, decode: Decoder)
    requires CacheCoherent(r, decode)
    ensures Unparcel(before + WireImage(r) + after, |before|).Some?
    ensures CacheCoherent(Unparcel(before + WireImage(r) + after, |before|).value, decode)
  {
  }

  // ---------------------------------------------------------------------------
  // The mutable record

  class IdentityProvider {
    var id: Long
    var identifier: Option<string>
    var displayName: Option<string>
    var logoData: Option<seq<Byte>>
    var logoBitmap: Option<Bitmap>
    var authenticationURL: Option<string>
    var infoURL: Option<string>
    var ocraSuite: Option<string>

    /** The record's fields as a value. */
    function State(): Record
      reads this
    {
      Record(id, identifier, displayName, logoData, logoBitmap, authenticationURL, infoURL, ocraSuite)
    }

    constructor ()
      ensures State() == Blank
      ensures GetId() == NOT_INSERTED && GetOCRASuite() == "OCRA-1:HOTP-SHA1-6:QN10"
    {
      id := NOT_INSERTED;
      identifier, displayName, logoData, logoBitmap := None, None, None, None;
      authenticationURL, infoURL, ocraSuite := None, None, None;
    }

    /** Rebuilds a record from the eight entries at the parcel's cursor. */
    constructor FromParcel(source: Parcel)
      requires Unparcel(source.entries, source.position).Some?
      modifies source
      ensures State() == Unparcel(old(source.entries), old(source.position)).value
      ensures source.entries == old(source.entries) && source.position == old(source.position) + 8
    {
      var readId := source.ReadLong();
      var readIdentifier := source.ReadString();
      var readDisplayName := source.ReadString();
      var readLogoData := source.CreateByteArray();
      var readLogoBitmap := source.ReadParcelable();
      var readAuthenticationURL := source.ReadString();
      var readInfoURL := source.ReadString();
      var readOCRASuite := source.ReadString();
      id, identifier, displayName, logoData := readId, readIdentifier, readDisplayName, readLogoData;
      logoBitmap, authenticationURL, infoURL, ocraSuite := readLogoBitmap, readAuthenticationURL, readInfoURL, readOCRASuite;
    }

    /** Appends the eight entries of this record; `flags` is ignored. */
    method WriteToParcel(dest: Parcel, flags: int)
      modifies dest
      ensures dest.entries == old(dest.entries) + WireImage(State())
      ensures dest.position == old(dest.position)
    {
      dest.WriteLong(id);
      dest.WriteString(identifier);
      dest.WriteString(displayName);
      dest.WriteByteArray(logoData);
      dest.WriteParcelable(logoBitmap, 0);
      dest.WriteString(authenticationURL);
      dest.WriteString(infoURL);
      dest.WriteString(ocraSuite);
    }

    function GetId(): Long reads this { id }
    function GetIdentifier(): Option<string> reads this { identifier }
    function GetDisplayName(): Option<string> reads this { displayName }
    function GetLogoData(): Option<seq<Byte>> reads this { logoData }
    function GetAuthenticationURL(): Option<string> reads this { authenticationURL }
    function GetInfoURL(): Option<string> reads this { infoURL }

    function GetOCRASuite(): (suite: string)
      reads this
      ensures suite == EffectiveSuite(ocraSuite)
      ensures ocraSuite.Some? ==> suite == ocraSuite.value
    {
      EffectiveSuite(ocraSuite)
    }

    method SetId(id: Long)
      modifies this
      ensures State() == old(State()).(id := id)
      ensures forall d: Decoder :: Step(old(State()), Call.SetId(id), d) == Some(State())
      ensures GetId() == id
    {
      this.id := id;
    }

    method SetIdentifier(identifier: Option<string>)
      modifies this
      ensures State() == old(State()).(identifier := identifier)
      ensures forall d: Decoder :: Step(old(State()), Call.SetIdentifier(identifier), d) == Some(State())
      ensures GetIdentifier() == identifier
    {
      this.identifier := identifier;
    }

    method SetDisplayName(displayName: Option<string>)
      modifies this
      ensures State() == old(State()).(displayName := displayName)
      ensures forall d: Decoder :: Step(old(State()), Call.SetDisplayName(displayName), d) == Some(State())
      ensures GetDisplayName() == displayName
    {
      this.displayName := displayName;
    }

    /** Stores new logo bytes and drops the cached bitmap. */
    method SetLogoData(logoData: Option<seq<Byte>>)
      modifies this
      ensures State() == old(State()).(logoData := logoData, logoBitmap := None)
      ensures forall d: Decoder :: Step(old(State()), Call.SetLogoData(logoData), d) == Some(State())
      ensures GetLogoData() == logoData
    {
      this.logoData := logoData;
      logoBitmap := None;
    }

    /**
     * The cached bitmap if there is one; otherwise decodes non-empty logo
     * bytes into the cache (the decoder may give none) and returns the cache;
     * for empty bytes returns none without decoding.
     */
    method GetLogoBitmap(decode: Decoder) returns (bitmap: Option<Bitmap>)
      requires logoBitmap.Some? || logoData.Some?
      modifies this
      ensures old(logoBitmap).Some? ==> bitmap == old(logoBitmap)
      ensures old(logoBitmap).None? && |old(logoData).value| > 0 ==> bitmap == decode(old(logoData).value)
      ensures old(logoBitmap).None? && |old(logoData).value| == 0 ==> bitmap == None
      ensures State() == old(State()).(logoBitmap := bitmap)
      ensures Step(old(State()), Call.GetLogoBitmap, decode) == Some(State())
    {
      if logoBitmap.Some? {
        bitmap := logoBitmap;
      } else if |logoData.value| > 0 {
        logoBitmap := decode(logoData.value);
        bitmap := logoBitmap;
      } else {
        bitmap := None;
      }
    }

    method SetAuthenticationURL(authenticationURL: Option<string>)
      modifies this
      ensures State() == old(State()).(authenticationURL := authenticationURL)
      ensures forall d: Decoder :: Step(old(State()), Call.SetAuthenticationURL(authenticationURL), d) == Some(State())
      ensures GetAuthenticationURL() == authenticationURL
    {
      this.authenticationURL := authenticationURL;
    }

    /** As written: the parameter shadows the field and is assigned to itself. */
    method SetInfoURL(infoURL: Option<string>)
      ensures State() == old(State())
      ensures forall d: Decoder :: Step(old(State()), Call.SetInfoURL(infoURL), d) == Some(State())
    {
    }

    /** What setInfoURL evidently means to do. */
    method SetInfoURLAsIntended(infoURL: Option<string>)
      modifies this
      ensures State() == old(State()).(infoURL := infoURL)
      ensures GetInfoURL() == infoURL
    {
      this.infoURL := infoURL;
    }

    method SetOCRASuite(ocraSuite: Option<string>)
      modifies this
      ensures State() == old(State()).(ocraSuite := ocraSuite)
      ensures forall d: Decoder :: Step(old(State()), Call.SetOCRASuite(ocraSuite), d) == Some(State())
      ensures GetOCRASuite() == EffectiveSuite(ocraSuite)
    {
      this.ocraSuite := ocraSuite;
    }
  }

  /**
   * What the CREATOR gives back for a parcel this record was written to:
   * a record with the same eight fields.
   */
  method RoundTripThroughParcel(p: IdentityProvider) returns (q: IdentityProvider)
    ensures q.State() == p.State()
  {
    var parcel := new Parcel();
    p.WriteToParcel(parcel, 0);
    parcel.SetDataPosition(0);
    UnparcelWireImage(p.State(), [], []);
    assert [] + WireImage(p.State()) + [] == parcel.entries;
    q := new IdentityProvider.FromParcel(parcel);
  }
}
