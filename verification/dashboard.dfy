/**
 * The web client's dashboard logic: the summary it derives from the device
 * list, and the local update it applies to that list when the user requests an
 * action on a device.
 */
module DeviceDashboard {
  import opened Wrappers
  import opened DeviceTypes
  import opened BlocklistRules
  import opened Seqs
  import Tally

  predicate IsActive(d: Device) {
    d.isActive
  }

  /** The group name of each device, in list order. */
  function GroupNames(ds: seq<Device>): (ks: seq<string>)
    ensures |ks| == |ds|
    ensures forall i :: 0 <= i < |ds| ==> ks[i] == ds[i].group.name
  {
    seq(|ds|, i requires 0 <= i < |ds| => ds[i].group.name)
  }

  /** The classified category of each device, in list order. */
  function Categories(ds: seq<Device>): (ks: seq<string>)
    ensures |ks| == |ds|
    ensures forall i :: 0 <= i < |ds| ==> ks[i] == ds[i].classification.deviceCategory
  {
    seq(|ds|, i requires 0 <= i < |ds| => ds[i].classification.deviceCategory)
  }

  /**
   * The summary shown in the header: `total` is the number of devices,
   * `active` the number that are active, and the two tables count devices per
   * group name and per category, with one key per distinct value.
   */
  function LoadSummary(ds: seq<Device>): (s: Summary)
    ensures s.total == |ds|
    ensures s.active == ActiveCount(ds)
    ensures s.active <= s.total
    ensures s.active == s.total <==> forall i :: 0 <= i < |ds| ==> ds[i].isActive
    ensures s.active == 0 <==> forall i :: 0 <= i < |ds| ==> !ds[i].isActive
    ensures s.byGroup.Keys == set i | 0 <= i < |ds| :: ds[i].group.name
    ensures s.byCategory.Keys == set i | 0 <= i < |ds| :: ds[i].classification.deviceCategory
    ensures forall k :: k in s.byGroup ==> s.byGroup[k] == multiset(GroupNames(ds))[k]
    ensures forall k :: k in s.byCategory ==> s.byCategory[k] == multiset(Categories(ds))[k]
  {
    ActiveCountFacts(ds);
    FilterCountsActive(ds);
    KeySetFacts(ds);
    Tally.TallyCounts(GroupNames(ds));
    Tally.TallyCounts(Categories(ds));
    Summary(|ds|, |Filter(ds, IsActive)|, Tally.Tally(GroupNames(ds)), Tally.Tally(Categories(ds)))
  }

  /** The number of active devices, counted one device at a time. */
  ghost function ActiveCount(ds: seq<Device>): nat
    decreases |ds|
  {
    if |ds| == 0 then 0
    else (if ds[0].isActive then 1 else 0) + ActiveCount(ds[1..])
  }

  /** Keeping the active devices keeps as many devices as there are active ones. */
  lemma {:induction false} FilterCountsActive(ds: seq<Device>)
    ensures |Filter(ds, IsActive)| == ActiveCount(ds)
    decreases |ds|
  {
    if |ds| > 0 {
      FilterCountsActive(ds[1..]);
    }
  }

  lemma ActiveCountFacts(ds: seq<Device>)
    ensures |Filter(ds, IsActive)| == |ds| <==> forall i :: 0 <= i < |ds| ==> ds[i].isActive
    ensures |Filter(ds, IsActive)| == 0 <==> forall i :: 0 <= i < |ds| ==> !ds[i].isActive
  {
    var active := Filter(ds, IsActive);
    FilterKeepsLength(ds, IsActive);
    if |active| == 0 {
      forall i | 0 <= i < |ds| ensures !ds[i].isActive {
        assert ds[i] in ds;
      }
    }
  }

  lemma KeySetFacts(ds: seq<Device>)
    ensures (set k | k in GroupNames(ds)) == set i | 0 <= i < |ds| :: ds[i].group.name
    ensures (set k | k in Categories(ds)) == set i | 0 <= i < |ds| :: ds[i].classification.deviceCategory
  {
    var groups := GroupNames(ds);
    var cats := Categories(ds);
    forall k | k in groups ensures exists i :: 0 <= i < |ds| && ds[i].group.name == k {
      var i :| 0 <= i < |groups| && groups[i] == k;
    }
    forall k | k in cats ensures exists i :: 0 <= i < |ds| && ds[i].classification.deviceCategory == k {
      var i :| 0 <= i < |cats| && cats[i] == k;
    }
  }

  /** Both tables of a summary count every device exactly once. */
  lemma SummaryCountsAddUp(ds: seq<Device>)
    ensures Tally.MapSum(LoadSummary(ds).byGroup) == LoadSummary(ds).total
    ensures Tally.MapSum(LoadSummary(ds).byCategory) == LoadSummary(ds).total
  {
    Tally.TallySum(GroupNames(ds));
    Tally.TallySum(Categories(ds));
  }

  /**
   * The flag a `toggle_block` request names: a category must be present,
   * non-empty and one of the blocklist's own keys.
   */
  function ToggleTarget(category: Option<string>): (r: Option<Flag>)
    ensures r.Some? <==> category.Some? && exists f :: FieldName(f) == category.value
    ensures r.Some? ==> FieldName(r.value) == category.value
  {
    if category.None? || category.value == "" then None
    else ParseField(category.value)
  }

  /**
   * One device after an action: only the blocklist and the custom-blocklist
   * marker can change. `isolate` and `release` always apply and mark the
   * blocklist as custom; `toggle_block` flips exactly the named flag, and with
   * a missing or unknown category leaves the device completely unchanged.
   */
  function ApplyAction(d: Device, a: DeviceAction): (r: Device)
    ensures r.(blocklist := d.blocklist, hasCustomBlocklist := d.hasCustomBlocklist) == d
    ensures a.action == Isolate ==> r.blocklist == Isolated(d.blocklist) && r.hasCustomBlocklist
    ensures a.action == Release ==> r.blocklist == Released(d.blocklist) && r.hasCustomBlocklist
    ensures a.action == ToggleBlock && ToggleTarget(a.category).Some? ==>
      && Get(r.blocklist, ToggleTarget(a.category).value) != Get(d.blocklist, ToggleTarget(a.category).value)
      && (forall g :: g != ToggleTarget(a.category).value ==> Get(r.blocklist, g) == Get(d.blocklist, g))
      && r.hasCustomBlocklist
    ensures a.action == ToggleBlock && ToggleTarget(a.category).None? ==> r == d
  {
    match a.action
    case Isolate => d.(blocklist := Isolated(d.blocklist), hasCustomBlocklist := true)
    case Release => d.(blocklist := Released(d.blocklist), hasCustomBlocklist := true)
    case ToggleBlock =>
      match ToggleTarget(a.category)
      case Some(f) => d.(blocklist := Toggled(d.blocklist, f), hasCustomBlocklist := true)
      case None => d
  }

  /**
   * The device list after an action on `id`: same length and order, every
   * device with that id updated, every other device untouched.
   */
  function HandleDeviceAction(ds: seq<Device>, id: int, a: DeviceAction): (r: seq<Device>)
    ensures |r| == |ds|
    ensures forall i :: 0 <= i < |ds| && ds[i].id != id ==> r[i] == ds[i]
    ensures forall i :: 0 <= i < |ds| && ds[i].id == id ==> r[i] == ApplyAction(ds[i], a)
    decreases |ds|
  {
    if |ds| == 0 then []
    else
      var head := if ds[0].id == id then ApplyAction(ds[0], a) else ds[0];
      [head] + HandleDeviceAction(ds[1..], id, a)
  }

  /** Isolating a device twice gives the same device as isolating it once. */
  lemma IsolateActionIdempotent(d: Device, category: Option<string>)
    ensures ApplyAction(ApplyAction(d, DeviceAction(Isolate, category)), DeviceAction(Isolate, category))
         == ApplyAction(d, DeviceAction(Isolate, category))
  {
    IsolateIdempotent(d.blocklist);
  }

  /** Toggling a known category twice restores the device's blocklist. */
  lemma ToggleActionTwiceRestoresBlocklist(d: Device, category: Option<string>)
    ensures ApplyAction(ApplyAction(d, DeviceAction(ToggleBlock, category)), DeviceAction(ToggleBlock, category)).blocklist
         == d.blocklist
  {
    var t := ToggleTarget(category);
    if t.Some? {
      ToggleInvolution(d.blocklist, t.value);
    }
  }
}
