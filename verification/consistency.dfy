/**
 * Agreement between the client's local action handling, the server's action
 * handler and the requests the details panel sends.
 */
module Consistency {
  import opened Wrappers
  import opened DeviceTypes
  import opened BlocklistRules
  import opened DeviceDashboard
  import opened ServerApi
  import opened DeviceDetailsPanel

  /** No two devices of the list share an id. */
  ghost predicate UniqueIds(ds: seq<Device>) {
    forall i, j :: 0 <= i < j < |ds| ==> ds[i].id != ds[j].id
  }

  /**
   * On one device, the server does what the client does: the same device for
   * every request the client acts on, and a 400 exactly on a toggle whose
   * category is missing, empty or not a field name, which the client ignores.
   */
  lemma ServerMatchesClientAction(d: Device, a: DeviceAction)
    ensures a.action != ToggleBlock || ToggleTarget(a.category).Some? ==>
      ApplyServerAction(d, ActionName(a.action), a.category) == Success(ApplyAction(d, a))
    ensures a.action == ToggleBlock && ToggleTarget(a.category).None? ==>
      && ApplyServerAction(d, ActionName(a.action), a.category).Failure?
      && ApplyServerAction(d, ActionName(a.action), a.category).error.status == 400
      && ApplyAction(d, a) == d
  {
    if a.action == ToggleBlock && a.category.Some? && a.category.value == "" {
      assert ParseField(a.category.value).None?;
    }
  }

  /**
   * With unique ids, the list the server keeps after an action request is the
   * list the client computes locally, whatever the request and whether or not
   * the id exists.
   */
  lemma ServerListMatchesClientList(ds: seq<Device>, id: int, a: DeviceAction)
    requires UniqueIds(ds)
    ensures ExecuteDeviceAction(ds, id, ActionName(a.action), a.category).db == HandleDeviceAction(ds, id, a)
  {
    var client := HandleDeviceAction(ds, id, a);
    var server := ExecuteDeviceAction(ds, id, ActionName(a.action), a.category);
    match FindDevice(ds, id)
    case None =>
      assert client == ds;
    case Some(k) =>
      ServerMatchesClientAction(ds[k], a);
      forall i | 0 <= i < |ds| ensures server.db[i] == client[i] {
        if i != k {
          assert ds[i].id != id;
        }
      }
  }

  /** An action on an id no device has changes nothing on either side, and the server answers 404. */
  lemma UnknownIdChangesNothing(ds: seq<Device>, id: int, a: DeviceAction)
    requires forall i :: 0 <= i < |ds| ==> ds[i].id != id
    ensures HandleDeviceAction(ds, id, a) == ds
    ensures ExecuteDeviceAction(ds, id, ActionName(a.action), a.category) == Response(ds, Failure(DeviceNotFound))
  {
  }

  /**
   * Every request the details panel can send is accepted by the server: the
   * quick actions always, and every toggle row because its key is a blocklist
   * field.
   */
  lemma PanelRequestsAccepted(d: Device, i: int)
    requires 0 <= i < |BlocklistCategories|
    ensures ApplyServerAction(d, ActionName(IsolateRequest().action), IsolateRequest().category).Success?
    ensures ApplyServerAction(d, ActionName(ReleaseRequest().action), ReleaseRequest().category).Success?
    ensures var req := ToggleRequest(BlocklistCategories[i]);
      ApplyServerAction(d, ActionName(req.action), req.category).Success?
  {
    CategoryTableCoversBlocklist();
  }

  /**
   * Pressing a toggle row flips exactly that row's state in the rows rendered
   * for the updated device and leaves every other row as it was.
   */
  lemma PanelToggleFlipsItsRow(d: Device, i: int)
    requires 0 <= i < |BlocklistCategories|
    ensures var after := ApplyAction(d, ToggleRequest(BlocklistCategories[i]));
      && ToggleRows(after.blocklist)[i].isBlocked == !ToggleRows(d.blocklist)[i].isBlocked
      && forall j :: 0 <= j < |BlocklistCategories| && j != i ==>
           ToggleRows(after.blocklist)[j].isBlocked == ToggleRows(d.blocklist)[j].isBlocked
  {
    CategoryTableCoversBlocklist();
    var after := ApplyAction(d, ToggleRequest(BlocklistCategories[i]));
    assert ToggleTarget(Some(BlocklistCategories[i].key)) == Some(RowFlags[i]);
    forall j | 0 <= j < |BlocklistCategories| && j != i
      ensures Get(after.blocklist, RowFlags[j]) == Get(d.blocklist, RowFlags[j])
    {
      RowFlagsDistinct(if i < j then i else j, if i < j then j else i);
    }
  }

  /**
   * Without unique ids the two sides part ways: the client updates every
   * device with the id, the server only the first. Isolating in a list that
   * holds the same unmarked device twice shows the lists differ.
   */
  lemma DuplicateIdsDiverge(d: Device)
    requires !d.hasCustomBlocklist
    ensures ExecuteDeviceAction([d, d], d.id, "isolate", None).db[1] == d
    ensures HandleDeviceAction([d, d], d.id, DeviceAction(Isolate, None))[1] != d
  {
  }
}
