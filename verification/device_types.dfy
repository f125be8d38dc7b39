/**
 * The record shapes shared by the web client and the API server: a device, its
 * group, its 13-flag content blocklist, the summary counts and the action and
 * update payloads.
 */
module DeviceTypes {
  import opened Wrappers

  /** One content category of the blocklist, in declaration order. */
  datatype Flag =
    | AdsTrackers | Gambling | SocialMedia | Porn | Gaming | Streaming
    | Facebook | Instagram | Tiktok | Netflix | Youtube | Ai | Safesearch

  /** Thirteen boolean flags; `safesearch` is the last of them. */
  datatype BlockList = BlockList(
    adsTrackers: bool, gambling: bool, socialMedia: bool, porn: bool,
    gaming: bool, streaming: bool, facebook: bool, instagram: bool,
    tiktok: bool, netflix: bool, youtube: bool, ai: bool, safesearch: bool)

  /** Every flag, in the order both the client and the server declare the fields. */
  const AllFlags: seq<Flag> := [
    AdsTrackers, Gambling, SocialMedia, Porn, Gaming, Streaming,
    Facebook, Instagram, Tiktok, Netflix, Youtube, Ai, Safesearch]

  /** Reads the flag `f` of `b`. */
  function Get(b: BlockList, f: Flag): bool {
    match f
    case AdsTrackers => b.adsTrackers
    case Gambling => b.gambling
    case SocialMedia => b.socialMedia
    case Porn => b.porn
    case Gaming => b.gaming
    case Streaming => b.streaming
    case Facebook => b.facebook
    case Instagram => b.instagram
    case Tiktok => b.tiktok
    case Netflix => b.netflix
    case Youtube => b.youtube
    case Ai => b.ai
    case Safesearch => b.safesearch
  }

  /** Writes `v` into the flag `f` of `b`. */
  function Set(b: BlockList, f: Flag, v: bool): (r: BlockList)
    ensures Get(r, f) == v
  {
    BlockList(
      if f == AdsTrackers then v else b.adsTrackers,
      if f == Gambling then v else b.gambling,
      if f == SocialMedia then v else b.socialMedia,
      if f == Porn then v else b.porn,
      if f == Gaming then v else b.gaming,
      if f == Streaming then v else b.streaming,
      if f == Facebook then v else b.facebook,
      if f == Instagram then v else b.instagram,
      if f == Tiktok then v else b.tiktok,
      if f == Netflix then v else b.netflix,
      if f == Youtube then v else b.youtube,
      if f == Ai then v else b.ai,
      if f == Safesearch then v else b.safesearch)
  }

  /** Writing one flag leaves a given other flag as it was. */
  lemma SetOther(b: BlockList, f: Flag, v: bool, g: Flag)
    ensures Get(Set(b, f, v), g) == if g == f then v else Get(b, g)
  {
  }

  /** Writing one flag changes that flag only. */
  lemma SetFrame(b: BlockList, f: Flag, v: bool)
    ensures forall g :: Get(Set(b, f, v), g) == if g == f then v else Get(b, g)
  {
    forall g ensures Get(Set(b, f, v), g) == if g == f then v else Get(b, g) {
      SetOther(b, f, v, g);
    }
  }

  /** The wire name of a flag: the field name both sides declare. */
  function FieldName(f: Flag): string {
    match f
    case AdsTrackers => "ads_trackers"
    case Gambling => "gambling"
    case SocialMedia => "social_media"
    case Porn => "porn"
    case Gaming => "gaming"
    case Streaming => "streaming"
    case Facebook => "facebook"
    case Instagram => "instagram"
    case Tiktok => "tiktok"
    case Netflix => "netflix"
    case Youtube => "youtube"
    case Ai => "ai"
    case Safesearch => "safesearch"
  }

  /** The flag a category string names, if it is one of the 13 field names. */
  function ParseField(s: string): (r: Option<Flag>)
    ensures r.Some? ==> FieldName(r.value) == s
    ensures r.None? <==> forall f :: FieldName(f) != s
  {
    if s == "ads_trackers" then Some(AdsTrackers)
    else if s == "gambling" then Some(Gambling)
    else if s == "social_media" then Some(SocialMedia)
    else if s == "porn" then Some(Porn)
    else if s == "gaming" then Some(Gaming)
    else if s == "streaming" then Some(Streaming)
    else if s == "facebook" then Some(Facebook)
    else if s == "instagram" then Some(Instagram)
    else if s == "tiktok" then Some(Tiktok)
    else if s == "netflix" then Some(Netflix)
    else if s == "youtube" then Some(Youtube)
    else if s == "ai" then Some(Ai)
    else if s == "safesearch" then Some(Safesearch)
    else None
  }

  /** The client's `BlockList` interface fields, in declaration order. */
  const ClientFieldNames: seq<string> := [
    "ads_trackers", "gambling", "social_media", "porn", "gaming", "streaming",
    "facebook", "instagram", "tiktok", "netflix", "youtube", "ai", "safesearch"]

  /** The server's `BlockList` model fields, in declaration order. */
  const ServerFieldNames: seq<string> := [
    "ads_trackers", "gambling", "social_media", "porn", "gaming", "streaming",
    "facebook", "instagram", "tiktok", "netflix", "youtube", "ai", "safesearch"]

  /**
   * The two declarations agree field by field, and both list the field name
   * of every flag in the order of `AllFlags`.
   */
  lemma FieldTablesAgree()
    ensures ServerFieldNames == ClientFieldNames
    ensures |ClientFieldNames| == |AllFlags|
    ensures forall i :: 0 <= i < |AllFlags| ==> ClientFieldNames[i] == FieldName(AllFlags[i])
  {
  }

  /**
   * A blocklist is exactly 13 flags: the field names are pairwise distinct,
   * every flag appears once in declaration order, `safesearch` is one of them,
   * and parsing a field name gives its flag back.
   */
  lemma BlockListShape()
    ensures |ClientFieldNames| == 13
    ensures forall i, j :: 0 <= i < j < |ClientFieldNames| ==> ClientFieldNames[i] != ClientFieldNames[j]
    ensures forall f :: f in AllFlags
    ensures "safesearch" in ClientFieldNames
    ensures forall f :: ParseField(FieldName(f)) == Some(f)
  {
    assert ClientFieldNames[12] == "safesearch";
    forall f ensures f in AllFlags {
      FlagListed(f);
    }
    forall f ensures ParseField(FieldName(f)) == Some(f) {
      FieldNameParses(f);
    }
  }

  /** Every flag has a position in `AllFlags`. */
  lemma FlagListed(f: Flag)
    ensures f in AllFlags
  {
    match f
    case AdsTrackers => assert AllFlags[0] == f;
    case Gambling => assert AllFlags[1] == f;
    case SocialMedia => assert AllFlags[2] == f;
    case Porn => assert AllFlags[3] == f;
    case Gaming => assert AllFlags[4] == f;
    case Streaming => assert AllFlags[5] == f;
    case Facebook => assert AllFlags[6] == f;
    case Instagram => assert AllFlags[7] == f;
    case Tiktok => assert AllFlags[8] == f;
    case Netflix => assert AllFlags[9] == f;
    case Youtube => assert AllFlags[10] == f;
    case Ai => assert AllFlags[11] == f;
    case Safesearch => assert AllFlags[12] == f;
  }

  /** Parsing a flag's field name gives the flag back. */
  lemma FieldNameParses(f: Flag)
    ensures ParseField(FieldName(f)) == Some(f)
  {
    FieldNameInjective(f, ParseField(FieldName(f)).value);
  }

  /** Distinct flags have distinct field names. */
  lemma FieldNameInjective(f: Flag, g: Flag)
    requires FieldName(f) == FieldName(g)
    ensures f == g
  {
    match f
    case AdsTrackers => assert FieldName(g)[0] == 'a' && |FieldName(g)| == 12;
    case Gambling => assert FieldName(g)[0] == 'g' && |FieldName(g)| == 8;
    case SocialMedia => assert FieldName(g)[0] == 's' && |FieldName(g)| == 12;
    case Porn => assert FieldName(g)[0] == 'p';
    case Gaming => assert FieldName(g)[0] == 'g' && |FieldName(g)| == 6;
    case Streaming => assert FieldName(g)[0] == 's' && |FieldName(g)| == 9;
    case Facebook => assert FieldName(g)[0] == 'f';
    case Instagram => assert FieldName(g)[0] == 'i';
    case Tiktok => assert FieldName(g)[0] == 't';
    case Netflix => assert FieldName(g)[0] == 'n';
    case Youtube => assert FieldName(g)[0] == 'y';
    case Ai => assert FieldName(g)[0] == 'a' && |FieldName(g)| == 2;
    case Safesearch => assert FieldName(g)[0] == 's' && |FieldName(g)| == 10;
  }

  /** A network segment: the filter keys on `name`, the layout keys on `id`. */
  datatype DeviceGroup = DeviceGroup(id: int, name: string, isDefault: bool)

  /** The classifier's verdict; `confidence` is a score in [0, 1]. */
  datatype Classification = Classification(
    deviceType: string, deviceCategory: string, confidence: real,
    reasoning: string, indicators: seq<string>, lastClassified: string)

  /** Operating-system fingerprint fields, carried through unchanged. */
  datatype OsInfo = OsInfo(
    name: string, accuracy: int, osType: string, vendor: string,
    family: string, gen: string, cpe: seq<string>, lastUpdated: string)

  datatype Device = Device(
    id: int, mac: string, hostname: string, vendor: string, givenName: string,
    ip: string, userAgent: seq<string>, group: DeviceGroup,
    isActive: bool, hasCustomBlocklist: bool, firstSeen: string, lastSeen: string,
    isMacUniversal: bool, os: OsInfo, blocklist: BlockList,
    classification: Classification)

  /** Dashboard counts: totals plus per-group-name and per-category tallies. */
  datatype Summary = Summary(
    total: nat, active: nat, byGroup: map<string, nat>, byCategory: map<string, nat>)

  /** The three actions a client may request. */
  datatype ActionKind = Isolate | Release | ToggleBlock

  /** An action request; `category` matters only for `toggle_block`. */
  datatype DeviceAction = DeviceAction(action: ActionKind, category: Option<string>)

  /** The wire name of an action kind. */
  function ActionName(k: ActionKind): string {
    match k
    case Isolate => "isolate"
    case Release => "release"
    case ToggleBlock => "toggle_block"
  }

  /** The action kind a wire string names, if any. */
  function ParseAction(s: string): (r: Option<ActionKind>)
    ensures r.Some? ==> ActionName(r.value) == s
    ensures r.None? <==> forall k :: ActionName(k) != s
  {
    if s == "isolate" then Some(Isolate)
    else if s == "release" then Some(Release)
    else if s == "toggle_block" then Some(ToggleBlock)
    else None
  }

  /** An action is exactly one of the three kinds, and each has a distinct wire name. */
  lemma ActionNamesRoundTrip(k: ActionKind)
    ensures ParseAction(ActionName(k)) == Some(k)
  {
    var p := ParseAction(ActionName(k));
    assert p.Some?;
    match k
    case Isolate =>
    case Release => assert ActionName(p.value)[0] == 'r';
    case ToggleBlock => assert ActionName(p.value)[0] == 't';
  }

  /** A partial update of a device, as the server accepts it. */
  datatype DeviceUpdate = DeviceUpdate(givenName: Option<string>, groupId: Option<int>)
}
