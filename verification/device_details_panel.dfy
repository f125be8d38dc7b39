/**
 * The side panel for the selected device: the status class and icon in its
 * header, the isolate/release buttons, and one toggle row per blocklist
 * category, each dispatching an action request.
 */
module DeviceDetailsPanel {
  import opened Wrappers
  import opened DeviceTypes

  /** A toggle row's category key and its display label. */
  datatype CategoryEntry = CategoryEntry(key: string, caption: string)

  /** The toggle rows in display order; `safesearch` has no row. */
  const BlocklistCategories: seq<CategoryEntry> := [
    CategoryEntry("social_media", "Social Media"),
    CategoryEntry("gaming", "Gaming"),
    CategoryEntry("streaming", "Streaming"),
    CategoryEntry("ads_trackers", "Ads & Trackers"),
    CategoryEntry("gambling", "Gambling"),
    CategoryEntry("porn", "Adult Content"),
    CategoryEntry("youtube", "YouTube"),
    CategoryEntry("facebook", "Facebook"),
    CategoryEntry("instagram", "Instagram"),
    CategoryEntry("tiktok", "TikTok"),
    CategoryEntry("netflix", "Netflix"),
    CategoryEntry("ai", "AI Services")]

  /** The flags of the toggle rows, in display order. */
  const RowFlags: seq<Flag> := [
    SocialMedia, Gaming, Streaming, AdsTrackers, Gambling, Porn,
    Youtube, Facebook, Instagram, Tiktok, Netflix, Ai]

  /** Row `i` is keyed by the field name of its flag. */
  lemma RowKey(i: int)
    requires 0 <= i < |BlocklistCategories|
    ensures BlocklistCategories[i].key == FieldName(RowFlags[i])
  {
    if i < 6 {
      if i == 0 {} else if i == 1 {} else if i == 2 {} else if i == 3 {} else if i == 4 {} else {}
    } else {
      if i == 6 {} else if i == 7 {} else if i == 8 {} else if i == 9 {} else if i == 10 {} else {}
    }
  }

  /**
   * The table has 12 rows with pairwise-distinct keys; every key is the field
   * name of a blocklist flag other than `safesearch`, and every flag other than
   * `safesearch` has a row.
   */
  lemma CategoryTableCoversBlocklist()
    ensures |BlocklistCategories| == 12
    ensures forall i, j :: 0 <= i < j < |BlocklistCategories| ==> BlocklistCategories[i].key != BlocklistCategories[j].key
    ensures forall i :: 0 <= i < |BlocklistCategories| ==> ParseField(BlocklistCategories[i].key) == Some(RowFlags[i])
    ensures forall f :: f != Safesearch <==> f in RowFlags
  {
    forall i | 0 <= i < |BlocklistCategories|
      ensures ParseField(BlocklistCategories[i].key) == Some(RowFlags[i])
    {
      RowKey(i);
      FieldNameParses(RowFlags[i]);
    }
    forall i, j | 0 <= i < j < |BlocklistCategories|
      ensures BlocklistCategories[i].key != BlocklistCategories[j].key
    {
      RowKey(i);
      RowKey(j);
      if BlocklistCategories[i].key == BlocklistCategories[j].key {
        FieldNameInjective(RowFlags[i], RowFlags[j]);
        RowFlagsDistinct(i, j);
      }
    }
    forall f ensures f != Safesearch <==> f in RowFlags {
      RowFlagsCover(f);
    }
  }

  lemma RowFlagsDistinct(i: int, j: int)
    requires 0 <= i < j < |RowFlags|
    ensures RowFlags[i] != RowFlags[j]
  {
  }

  /** Exactly the flags other than `safesearch` have a row. */
  lemma RowFlagsCover(f: Flag)
    ensures f != Safesearch <==> f in RowFlags
  {
    match f
    case SocialMedia => assert RowFlags[0] == f;
    case Gaming => assert RowFlags[1] == f;
    case Streaming => assert RowFlags[2] == f;
    case AdsTrackers => assert RowFlags[3] == f;
    case Gambling => assert RowFlags[4] == f;
    case Porn => assert RowFlags[5] == f;
    case Youtube => assert RowFlags[6] == f;
    case Facebook => assert RowFlags[7] == f;
    case Instagram => assert RowFlags[8] == f;
    case Tiktok => assert RowFlags[9] == f;
    case Netflix => assert RowFlags[10] == f;
    case Ai => assert RowFlags[11] == f;
    case Safesearch =>
  }

  /** The request the isolate button sends: no category. */
  function IsolateRequest(): (a: DeviceAction)
    ensures a.action == Isolate && a.category.None?
  {
    DeviceAction(Isolate, None)
  }

  /** The request the release button sends: no category. */
  function ReleaseRequest(): (a: DeviceAction)
    ensures a.action == Release && a.category.None?
  {
    DeviceAction(Release, None)
  }

  /** The request a toggle row sends: `toggle_block` with the row's key. */
  function ToggleRequest(e: CategoryEntry): (a: DeviceAction)
    ensures a.action == ToggleBlock && a.category == Some(e.key)
  {
    DeviceAction(ToggleBlock, Some(e.key))
  }

  /** The CSS class of the status icon. */
  datatype StatusClass = TextDeviceInactive | TextDeviceActive

  /** The status class is the inactive class exactly when the device is inactive. */
  function StatusColor(d: Device): (c: StatusClass)
    ensures c == TextDeviceInactive <==> !d.isActive
  {
    if !d.isActive then TextDeviceInactive else TextDeviceActive
  }

  datatype Icon = Monitor | Smartphone | Tv | Printer | Wifi

  /** The header icon; every category gets one, with wifi for any unlisted category. */
  function DeviceIcon(category: string): (i: Icon)
    ensures i == Wifi <==> category !in {"computer", "mobile", "entertainment", "office"}
    ensures category == "entertainment" ==> i == Tv
  {
    match category
    case "computer" => Monitor
    case "mobile" => Smartphone
    case "entertainment" => Tv
    case "office" => Printer
    case _ => Wifi
  }

  /** One toggle row as rendered: its label, its current state and the request it sends. */
  datatype ToggleRow = ToggleRow(caption: string, isBlocked: bool, request: DeviceAction)

  /** What the panel shows for a device. */
  datatype PanelView = PanelView(
    title: string, subtitle: string, status: StatusClass, icon: Icon,
    isolate: DeviceAction, release: DeviceAction, toggles: seq<ToggleRow>)

  /** The toggle rows for a blocklist: one per table entry, showing that flag's current value. */
  function ToggleRows(b: BlockList): (rows: seq<ToggleRow>)
    ensures |rows| == |BlocklistCategories|
    ensures forall i :: 0 <= i < |rows| ==>
      && rows[i].caption == BlocklistCategories[i].caption
      && rows[i].isBlocked == Get(b, RowFlags[i])
      && rows[i].request == ToggleRequest(BlocklistCategories[i])
  {
    CategoryTableCoversBlocklist();
    seq(|BlocklistCategories|, i requires 0 <= i < |BlocklistCategories| =>
      var e := BlocklistCategories[i];
      ToggleRow(e.caption, Get(b, ParseField(e.key).value), ToggleRequest(e)))
  }

  /**
   * The panel: nothing for no device; otherwise the device's names, status
   * class and icon, the two quick-action requests and the toggle rows.
   */
  function RenderPanel(device: Option<Device>): (r: Option<PanelView>)
    ensures r.None? <==> device.None?
    ensures r.Some? ==>
      && r.value.title == device.value.givenName
      && r.value.subtitle == device.value.hostname
      && r.value.status == StatusColor(device.value)
      && r.value.icon == DeviceIcon(device.value.classification.deviceCategory)
      && r.value.isolate == IsolateRequest()
      && r.value.release == ReleaseRequest()
      && r.value.toggles == ToggleRows(device.value.blocklist)
  {
    match device
    case None => None
    case Some(d) =>
      Some(PanelView(d.givenName, d.hostname, StatusColor(d),
        DeviceIcon(d.classification.deviceCategory),
        IsolateRequest(), ReleaseRequest(), ToggleRows(d.blocklist)))
  }
}
