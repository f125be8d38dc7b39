/**
 * The API server's handlers over the in-memory device list: the summary, the
 * partial update of one device and the three device actions, each with the
 * HTTP error it raises modelled as a `Failure` result.
 */
module ServerApi {
  import opened Wrappers
  import opened DeviceTypes
  import opened BlocklistRules
  import opened Seqs
  import Tally
  import DeviceDashboard

  /** An HTTP error response: a status code and its detail message. */
  datatype HttpError = HttpError(status: int, detail: string)

  /** The device list after a request, and what the request answers. */
  datatype Response = Response(db: seq<Device>, reply: Result<Device, HttpError>)

  const DeviceNotFound := HttpError(404, "Device not found")
  const CategoryRequired := HttpError(400, "Category required for toggle_block action")

  /**
   * The position of the first device with `id`, scanning from the front; none
   * when no device has that id.
   */
  function FindDevice(db: seq<Device>, id: int): (r: Option<nat>)
    ensures r.Some? ==> r.value < |db| && db[r.value].id == id
    ensures r.Some? ==> forall j :: 0 <= j < r.value ==> db[j].id != id
    ensures r.None? <==> forall j :: 0 <= j < |db| ==> db[j].id != id
    decreases |db|
  {
    if |db| == 0 then None
    else if db[0].id == id then Some(0)
    else
      match FindDevice(db[1..], id)
      case None =>
        assert forall j :: 1 <= j < |db| ==> db[j] == db[1..][j - 1];
        None
      case Some(i) =>
        assert db[i + 1] == db[1..][i];
        assert forall j :: 1 <= j < i + 1 ==> db[j] == db[1..][j - 1];
        Some(i + 1)
  }

  /** The fixed table of known groups; any other id names no group. */
  function GroupNameTable(groupId: int): (r: Option<string>)
    ensures r.Some? <==> 1 <= groupId <= 4
  {
    if groupId == 1 then Some("Default")
    else if groupId == 2 then Some("Staff")
    else if groupId == 3 then Some("Guests")
    else if groupId == 4 then Some("IoT")
    else None
  }

  /**
   * One device after a partial update: only the given name and the group can
   * change. A provided name replaces the old one. A known group id sets id and
   * name from the table, and marks the group as default iff the id is 1; an
   * unknown group id is ignored.
   */
  function ApplyUpdate(d: Device, u: DeviceUpdate): (r: Device)
    ensures r.(givenName := d.givenName, group := d.group) == d
    ensures u.givenName.Some? ==> r.givenName == u.givenName.value
    ensures u.givenName.None? ==> r.givenName == d.givenName
    ensures u.groupId.Some? && 1 <= u.groupId.value <= 4 ==>
      && r.group.id == u.groupId.value
      && Some(r.group.name) == GroupNameTable(u.groupId.value)
      && (r.group.isDefault <==> r.group.id == 1)
    ensures u.groupId.None? || GroupNameTable(u.groupId.value).None? ==> r.group == d.group
  {
    var named := if u.givenName.Some? then d.(givenName := u.givenName.value) else d;
    if u.groupId.Some? && GroupNameTable(u.groupId.value).Some? then
      var gid := u.groupId.value;
      named.(group := DeviceGroup(gid, GroupNameTable(gid).value, gid == 1))
    else named
  }

  /**
   * The PATCH handler: 404 and no change when no device has `id`; otherwise the
   * first device with that id is updated in place and returned, and every other
   * entry of the list is left as it was.
   */
  function UpdateDevice(db: seq<Device>, id: int, u: DeviceUpdate): (r: Response)
    ensures r.reply.Failure? <==> forall j :: 0 <= j < |db| ==> db[j].id != id
    ensures r.reply.Failure? ==> r.db == db && r.reply.error.status == 404
    ensures r.reply.Success? ==>
      && |r.db| == |db|
      && (exists i :: 0 <= i < |db| && db[i].id == id && r.db[i] == r.reply.value
            && r.reply.value == ApplyUpdate(db[i], u)
            && (forall j :: 0 <= j < i ==> db[j].id != id)
            && (forall j :: 0 <= j < |db| && j != i ==> r.db[j] == db[j]))
    ensures FindDevice(db, id).Some? ==>
      var i := FindDevice(db, id).value;
      r == Response(db[i := ApplyUpdate(db[i], u)], Success(ApplyUpdate(db[i], u)))
  {
    match FindDevice(db, id)
    case None => Response(db, Failure(DeviceNotFound))
    case Some(i) =>
      var d := ApplyUpdate(db[i], u);
      Response(db[i := d], Success(d))
  }

  /** A device whose group id is a known one carries that group's name and default marker. */
  ghost predicate GroupConsistent(d: Device) {
    GroupNameTable(d.group.id).Some? ==>
      Some(d.group.name) == GroupNameTable(d.group.id) && (d.group.isDefault <==> d.group.id == 1)
  }

  /** Updates never make a device's group id disagree with its name or default marker. */
  lemma UpdateKeepsGroupsConsistent(db: seq<Device>, id: int, u: DeviceUpdate)
    requires forall i :: 0 <= i < |db| ==> GroupConsistent(db[i])
    ensures forall i :: 0 <= i < |UpdateDevice(db, id, u).db| ==> GroupConsistent(UpdateDevice(db, id, u).db[i])
  {
  }

  /**
   * The action handler applied to one device. `isolate` and `release` always
   * succeed; `toggle_block` needs a non-empty category (else 400) that names a
   * blocklist field (else 400); any other action string is a 400.
   */
  function ApplyServerAction(d: Device, action: string, category: Option<string>): (r: Result<Device, HttpError>)
    ensures r.Failure? ==> r.error.status == 400
    ensures r.Failure? <==>
      || ParseAction(action).None?
      || (action == "toggle_block" && (category.None? || ParseField(category.value).None?))
    ensures r.Success? ==>
      && r.value.(blocklist := d.blocklist, hasCustomBlocklist := d.hasCustomBlocklist) == d
      && r.value.hasCustomBlocklist
    ensures action == "isolate" ==> r.Success? && r.value.blocklist == Isolated(d.blocklist)
    ensures action == "release" ==> r.Success? && r.value.blocklist == Released(d.blocklist)
    ensures action == "toggle_block" && r.Success? ==>
      && category.Some?
      && ParseField(category.value).Some?
      && var f := ParseField(category.value).value;
         && Get(r.value.blocklist, f) != Get(d.blocklist, f)
         && (forall g :: g != f ==> Get(r.value.blocklist, g) == Get(d.blocklist, g))
  {
    if action == "isolate" then
      Success(d.(blocklist := Isolated(d.blocklist), hasCustomBlocklist := true))
    else if action == "release" then
      Success(d.(blocklist := Released(d.blocklist), hasCustomBlocklist := true))
    else if action == "toggle_block" then
      if category.None? || category.value == "" then Failure(CategoryRequired)
      else
        match ParseField(category.value)
        case Some(f) => Success(d.(blocklist := Toggled(d.blocklist, f), hasCustomBlocklist := true))
        case None => Failure(HttpError(400, "Invalid category: " + category.value))
    else Failure(HttpError(400, "Invalid action: " + action))
  }

  /**
   * The POST action handler: 404 when no device has `id`, the device's own 400
   * otherwise; on any error the list is unchanged. On success exactly the first
   * device with that id is replaced by its updated version.
   */
  function ExecuteDeviceAction(db: seq<Device>, id: int, action: string, category: Option<string>): (r: Response)
    ensures (forall j :: 0 <= j < |db| ==> db[j].id != id) ==> r == Response(db, Failure(DeviceNotFound))
    ensures r.reply.Failure? ==> r.db == db
    ensures r.reply.Success? ==>
      && |r.db| == |db|
      && (exists i :: 0 <= i < |db| && db[i].id == id && r.db[i] == r.reply.value
            && Success(r.reply.value) == ApplyServerAction(db[i], action, category)
            && (forall j :: 0 <= j < i ==> db[j].id != id)
            && (forall j :: 0 <= j < |db| && j != i ==> r.db[j] == db[j]))
    ensures FindDevice(db, id).Some? ==>
      var i := FindDevice(db, id).value;
      && r.reply == ApplyServerAction(db[i], action, category)
      && (r.reply.Success? ==> r.db == db[i := r.reply.value])
  {
    match FindDevice(db, id)
    case None => Response(db, Failure(DeviceNotFound))
    case Some(i) =>
      match ApplyServerAction(db[i], action, category)
      case Failure(e) => Response(db, Failure(e))
      case Success(d) => Response(db[i := d], Success(d))
  }

  /**
   * The summary handler: one pass counting active devices, one pass tallying
   * group names and categories. It computes the same summary as the client.
   */
  method GetSummary(db: seq<Device>) returns (s: Summary)
    ensures s.total == |db|
    ensures s.active == |Filter(db, DeviceDashboard.IsActive)|
    ensures s.byGroup == Tally.Tally(DeviceDashboard.GroupNames(db))
    ensures s.byCategory == Tally.Tally(DeviceDashboard.Categories(db))
    ensures s == DeviceDashboard.LoadSummary(db)
  {
    var active := CountActive(db);
    var byGroup, byCategory := TallyGroupsAndCategories(db);
    s := Summary(|db|, active, byGroup, byCategory);
  }

  /** The number of active devices, counted in one pass. */
  method CountActive(db: seq<Device>) returns (active: nat)
    ensures active == |Filter(db, DeviceDashboard.IsActive)|
  {
    active := 0;
    var i := 0;
    while i < |db|
      invariant 0 <= i <= |db|
      invariant active == |Filter(db[..i], DeviceDashboard.IsActive)|
    {
      ActiveCountStep(db, i);
      if db[i].isActive {
        active := active + 1;
      }
      i := i + 1;
    }
    assert db[..|db|] == db;
  }

  /** The per-group-name and per-category tables, built in one pass. */
  method TallyGroupsAndCategories(db: seq<Device>) returns (byGroup: map<string, nat>, byCategory: map<string, nat>)
    ensures byGroup == Tally.Tally(DeviceDashboard.GroupNames(db))
    ensures byCategory == Tally.Tally(DeviceDashboard.Categories(db))
  {
    byGroup := map[];
    byCategory := map[];
    var i := 0;
    while i < |db|
      invariant 0 <= i <= |db|
      invariant byGroup == Tally.Tally(DeviceDashboard.GroupNames(db[..i]))
      invariant byCategory == Tally.Tally(DeviceDashboard.Categories(db[..i]))
    {
      TallyStep(db, i);
      var groupName := db[i].group.name;
      byGroup := byGroup[groupName := (if groupName in byGroup then byGroup[groupName] else 0) + 1];
      var category := db[i].classification.deviceCategory;
      byCategory := byCategory[category := (if category in byCategory then byCategory[category] else 0) + 1];
      i := i + 1;
    }
    assert db[..|db|] == db;
  }

  /** Extending the scanned prefix by one device adds one to the active count iff it is active. */
  lemma ActiveCountStep(db: seq<Device>, i: int)
    requires 0 <= i < |db|
    ensures |Filter(db[..i + 1], DeviceDashboard.IsActive)|
         == |Filter(db[..i], DeviceDashboard.IsActive)| + (if db[i].isActive then 1 else 0)
  {
    assert db[..i + 1] == db[..i] + [db[i]];
    FilterSnoc(db[..i], db[i], DeviceDashboard.IsActive);
  }

  /** Extending the scanned prefix by one device adds one to the counts of its two keys. */
  lemma TallyStep(db: seq<Device>, i: int)
    requires 0 <= i < |db|
    ensures var m := Tally.Tally(DeviceDashboard.GroupNames(db[..i]));
            var k := db[i].group.name;
            Tally.Tally(DeviceDashboard.GroupNames(db[..i + 1])) == m[k := (if k in m then m[k] else 0) + 1]
    ensures var m := Tally.Tally(DeviceDashboard.Categories(db[..i]));
            var k := db[i].classification.deviceCategory;
            Tally.Tally(DeviceDashboard.Categories(db[..i + 1])) == m[k := (if k in m then m[k] else 0) + 1]
  {
    PrefixKeysSnoc(db, i);
    Tally.TallySnoc(DeviceDashboard.GroupNames(db[..i]), db[i].group.name);
    Tally.TallySnoc(DeviceDashboard.Categories(db[..i]), db[i].classification.deviceCategory);
  }

  /** The keys of a one-longer prefix are the keys of the prefix plus the new device's keys. */
  lemma PrefixKeysSnoc(db: seq<Device>, i: int)
    requires 0 <= i < |db|
    ensures DeviceDashboard.GroupNames(db[..i + 1]) == DeviceDashboard.GroupNames(db[..i]) + [db[i].group.name]
    ensures DeviceDashboard.Categories(db[..i + 1]) == DeviceDashboard.Categories(db[..i]) + [db[i].classification.deviceCategory]
  {
  }
}
