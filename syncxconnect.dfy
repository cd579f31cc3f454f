/** The sync step of FabricCrossconnectServiceInstance: push an instance's xconnect to
    the ONOS controller of its owner, and remove it again when the instance is deleted. */
module SyncCrossconnectInstance {
  import opened Records
  import opened Helpers
  import SyncBngPortMapping

  /** The resource `sync_record` posts to, spelled as the step spells it. */
  const CreatePath: string := "/onos/segmentsrouting/xconnect"

  /** The resource `delete_record` deletes from. */
  const DeletePath: string := "/onos/segmentrouting/xconnect"

  /** `get_bng_port`: the BNG side of every xconnect is port 2. */
  function BngPort(o: Instance): (r: int)
    ensures r == 2
  {
    2
  }

  /** The POST `sync_record` sends: the westbound switch, s-tag and port, and the BNG port. */
  function CreateRequest(onos: OnosInfo, west: Westbound, eastPort: int): Request {
    Request(POST, onos.url + CreatePath, onos.user, onos.password,
      Some(JObject([
        ("deviceId", StringOrNull(west.switchDatapathId)),
        ("vlanId", IntOrNull(west.sTag)),
        ("ports", JArray([IntOrNull(west.switchPort), JInt(eastPort)]))])))
  }

  /** The DELETE `delete_record` sends. */
  function DeleteRequest(onos: OnosInfo, west: Westbound): Request {
    Request(DELETE, onos.url + DeletePath, onos.user, onos.password,
      Some(JObject([
        ("deviceId", StringOrNull(west.switchDatapathId)),
        ("vlanID", IntOrNull(west.sTag))])))
  }

  /** `sync_record(o)`: look up the owner's ONOS, then one POST; any status but 200 raises. */
  function SyncRecord(o: Instance, west: Westbound, c: Controller): (r: Run<()>)
    ensures |r.effects| <= 1
    ensures r.effects == [] <==> FabricOnosInfo(o.owner).None?
    ensures r.effects != [] ==>
      r.effects == [Sent(CreateRequest(FabricOnosInfo(o.owner).value, west, 2))]
    ensures r.outcome.Ok? <==>
      FabricOnosInfo(o.owner).Some? && c.status(CreateRequest(FabricOnosInfo(o.owner).value, west, 2)) == 200
    ensures r.outcome.Raised? ==>
      r.outcome.failure == NoOnosService || (r.outcome.failure.CreateFailed? && r.outcome.failure.status != 200)
    ensures FabricOnosInfo(o.owner).None? ==> r.outcome == Raised(NoOnosService)
    ensures r.effects != [] && r.outcome.Raised? ==>
      r.outcome.failure == CreateFailed(c.status(CreateRequest(FabricOnosInfo(o.owner).value, west, 2)))
  {
    var onos := FabricOnosInfo(o.owner);
    if onos.None? then Run([], Raised(NoOnosService))
    else
      var req := CreateRequest(onos.value, west, BngPort(o));
      if c.status(req) != 200 then Run([Sent(req)], Raised(CreateFailed(c.status(req))))
      else Run([Sent(req)], Ok(()))
  }

  /** `delete_record(o)`: nothing for an instance never enacted; otherwise look up the
      owner's ONOS, then one DELETE; any status but 204 raises. */
  function DeleteRecord(o: Instance, west: Westbound, c: Controller): (r: Run<()>)
    ensures !o.enacted ==> r == Run([], Ok(()))
    ensures |r.effects| <= 1
    ensures r.effects != [] <==> o.enacted && FabricOnosInfo(o.owner).Some?
    ensures r.effects != [] ==> r.effects == [Sent(DeleteRequest(FabricOnosInfo(o.owner).value, west))]
    ensures r.outcome.Ok? <==>
      !o.enacted || (FabricOnosInfo(o.owner).Some? && c.status(DeleteRequest(FabricOnosInfo(o.owner).value, west)) == 204)
    ensures r.outcome.Raised? ==>
      r.outcome.failure == NoOnosService || (r.outcome.failure.RemoveFailed? && r.outcome.failure.status != 204)
    ensures o.enacted && FabricOnosInfo(o.owner).None? ==> r.outcome == Raised(NoOnosService)
    ensures r.effects != [] && r.outcome.Raised? ==>
      r.outcome.failure == RemoveFailed(c.status(DeleteRequest(FabricOnosInfo(o.owner).value, west)))
  {
    if !o.enacted then Run([], Ok(()))
    else
      var onos := FabricOnosInfo(o.owner);
      if onos.None? then Run([], Raised(NoOnosService))
      else
        var req := DeleteRequest(onos.value, west);
        if c.status(req) != 204 then Run([Sent(req)], Raised(RemoveFailed(c.status(req))))
        else Run([Sent(req)], Ok(()))
  }

  /** The POST body carries "deviceId", "vlanId" and "ports", the westbound port first and
      the BNG port second. */
  lemma CreateRequestBody(onos: OnosInfo, west: Westbound, eastPort: int)
    ensures CreateRequest(onos, west, eastPort).verb == POST
    ensures CreateRequest(onos, west, eastPort).url == onos.url + "/onos/segmentsrouting/xconnect"
    ensures CreateRequest(onos, west, eastPort).body.Some? && CreateRequest(onos, west, eastPort).body.value.JObject?
    ensures Keys(CreateRequest(onos, west, eastPort).body.value.members) == ["deviceId", "vlanId", "ports"]
    ensures CreateRequest(onos, west, eastPort).body.value.members[0].1 == StringOrNull(west.switchDatapathId)
    ensures CreateRequest(onos, west, eastPort).body.value.members[1].1 == IntOrNull(west.sTag)
    ensures CreateRequest(onos, west, eastPort).body.value.members[2].1 == JArray([IntOrNull(west.switchPort), JInt(eastPort)])
  {
    var m := CreateRequest(onos, west, eastPort).body.value.members;
    assert m[2..][1..] == [];
    assert Keys(m[2..]) == [m[2].0] + Keys(m[2..][1..]);
    assert Keys(m[1..]) == [m[1].0] + Keys(m[1..][1..]);
  }

  /** The DELETE body carries "deviceId" and "vlanID", with a capital D. */
  lemma DeleteRequestBody(onos: OnosInfo, west: Westbound)
    ensures DeleteRequest(onos, west).verb == DELETE
    ensures DeleteRequest(onos, west).url == onos.url + "/onos/segmentrouting/xconnect"
    ensures DeleteRequest(onos, west).body.Some? && DeleteRequest(onos, west).body.value.JObject?
    ensures Keys(DeleteRequest(onos, west).body.value.members) == ["deviceId", "vlanID"]
    ensures DeleteRequest(onos, west).body.value.members[0].1 == StringOrNull(west.switchDatapathId)
    ensures DeleteRequest(onos, west).body.value.members[1].1 == IntOrNull(west.sTag)
  {
    var m := DeleteRequest(onos, west).body.value.members;
    assert m[1..][1..] == [];
    assert Keys(m[1..]) == [m[1].0] + Keys(m[1..][1..]);
  }

  /** As written, the step posts to a different resource than the one it deletes from, and
      its DELETE names the s-tag differently from the BNG port-mapping step's DELETE. */
  lemma RequestsDisagree(onos: OnosInfo, west: Westbound, eastPort: int, i: Instance)
    ensures CreateRequest(onos, west, eastPort).url != DeleteRequest(onos, west).url
    ensures DeleteRequest(onos, west).url == SyncBngPortMapping.RemoveRequest(i, onos).url
    ensures Keys(DeleteRequest(onos, west).body.value.members)
         != Keys(SyncBngPortMapping.RemoveRequest(i, onos).body.value.members)
  {
    DeleteRequestBody(onos, west);
    SyncBngPortMapping.RemoveRequestBody(i, onos);
    var u := CreateRequest(onos, west, eastPort).url;
    var v := DeleteRequest(onos, west).url;
    assert u[|onos.url| + 13] == 's' && v[|onos.url| + 13] == 'r';
    assert "vlanID" != "vlanId" by {
      assert "vlanID"[5] != "vlanId"[5];
    }
    assert ["deviceId", "vlanID"][1] != ["deviceId", "vlanId"][1];
  }
}
