/** The sync step of BNGPortMapping: when a mapping's s-tag specification or BNG port
    changes, or the mapping is deleted, find the crossconnect instances it covers and
    remove their xconnects from the ONOS controller. */
module SyncBngPortMapping {
  import opened PyString
  import opened Records
  import opened BngModels
  import opened Helpers

  /** The controller resource both requests of this step go to. */
  const XconnectPath: string := "/onos/segmentrouting/xconnect"

  /** What `find_crossconnect` returns: a list (possibly empty), `None`, or a raise
      from `range_matches`. */
  datatype Lookup = Found(instances: seq<Instance>) | NoneFound | LookupFailed

  /** Python truthiness of a lookup: a non-empty list. */
  predicate Nonempty(l: Lookup) {
    l.Found? && |l.instances| > 0
  }

  /** What `range_matches` is to the scan; the scan is stated for any matcher and used
      with `Helpers.RangeMatches`. */
  type Matcher = (int, string) -> Match

  /** `range_matches(fcsi.s_tag, spec)`; `int(None)` raises like a bad range does. */
  function InstanceMatch(i: Instance, spec: string, matches: Matcher): Match {
    if i.sTag.None? then MatchError else matches(i.sTag.value, spec)
  }

  /** The instances whose s-tag is `n`, in store order: the query `filter(s_tag=n)`. */
  function WithSTag(instances: seq<Instance>, n: int): seq<Instance> {
    if |instances| == 0 then []
    else (if instances[0].sTag == Some(n) then [instances[0]] else []) + WithSTag(instances[1..], n)
  }

  /** `fcsis_range`: the instances the matcher answers `True` for. */
  function Selected(instances: seq<Instance>, spec: string, matches: Matcher): seq<Instance> {
    if |instances| == 0 then []
    else
      (if InstanceMatch(instances[0], spec, matches) == Matches then [instances[0]] else [])
      + Selected(instances[1..], spec, matches)
  }

  /** `fcsis_any`: the instances it answers `False` or `None` for. */
  function Rejected(instances: seq<Instance>, spec: string, matches: Matcher): seq<Instance> {
    if |instances| == 0 then []
    else
      (if InstanceMatch(instances[0], spec, matches) in {AnyToken, NoMatch} then [instances[0]] else [])
      + Rejected(instances[1..], spec, matches)
  }

  /** Some instance makes the matcher raise. */
  predicate SomeRaises(instances: seq<Instance>, spec: string, matches: Matcher) {
    exists j :: 0 <= j < |instances| && InstanceMatch(instances[j], spec, matches) == MatchError
  }

  /** The `else` branch of `find_crossconnect`, from the instances still to scan and the
      lists `fcsis_range` and `fcsis_any` built so far. */
  function ScanFrom(rest: seq<Instance>, spec: string, matches: Matcher, inRange: seq<Instance>, inAny: seq<Instance>): Lookup {
    if |rest| == 0 then (if |inRange| > 0 then Found(inRange) else Found(inAny))
    else
      var m := InstanceMatch(rest[0], spec, matches);
      if m == MatchError then LookupFailed
      else if m == Matches then ScanFrom(rest[1..], spec, matches, inRange + [rest[0]], inAny)
      else ScanFrom(rest[1..], spec, matches, inRange, inAny + [rest[0]])
  }

  /** The scan over all instances. */
  function Scan(spec: string, instances: seq<Instance>, matches: Matcher): Lookup {
    ScanFrom(instances, spec, matches, [], [])
  }

  /** `find_crossconnect(spec)` over the stored instances. */
  function Crossconnects(spec: string, instances: seq<Instance>): Lookup {
    if IsNumeric(spec) then
      var w := WithSTag(instances, DigitsValue(spec));
      if |w| > 0 then Found(w) else NoneFound
    else Scan(spec, instances, RangeMatches)
  }

  /** The scan loop of `find_crossconnect`. */
  method ScanCrossconnects(spec: string, instances: seq<Instance>, matches: Matcher) returns (r: Lookup)
    ensures r == Scan(spec, instances, matches)
  {
    var inRange: seq<Instance> := [];
    var inAny: seq<Instance> := [];
    var i := 0;
    while i < |instances|
      invariant 0 <= i <= |instances|
      invariant ScanFrom(instances[i..], spec, matches, inRange, inAny) == Scan(spec, instances, matches)
    {
      assert instances[i..][1..] == instances[i + 1..];
      var m := InstanceMatch(instances[i], spec, matches);
      if m == MatchError {
        return LookupFailed;
      }
      if m == Matches {
        inRange := inRange + [instances[i]];
      } else {
        inAny := inAny + [instances[i]];
      }
      i := i + 1;
    }
    if |inRange| > 0 {
      return Found(inRange);
    }
    return Found(inAny);
  }

  /** An instance raises in a non-empty list exactly when its head or one in its tail does. */
  lemma SomeRaisesCons(rest: seq<Instance>, spec: string, matches: Matcher)
    requires |rest| > 0
    ensures SomeRaises(rest, spec, matches) <==>
      InstanceMatch(rest[0], spec, matches) == MatchError || SomeRaises(rest[1..], spec, matches)
  {
    if SomeRaises(rest[1..], spec, matches) {
      var j :| 0 <= j < |rest[1..]| && InstanceMatch(rest[1..][j], spec, matches) == MatchError;
      assert rest[j + 1] == rest[1..][j];
    }
  }

  /** The scan is the filter formulation: it raises exactly when some instance raises, and
      otherwise gives the matching instances when there are any and the others if not. */
  lemma {:induction false} ScanFromFilters(rest: seq<Instance>, spec: string, matches: Matcher, inRange: seq<Instance>, inAny: seq<Instance>)
    ensures ScanFrom(rest, spec, matches, inRange, inAny) ==
      if SomeRaises(rest, spec, matches) then LookupFailed
      else if |inRange + Selected(rest, spec, matches)| > 0 then Found(inRange + Selected(rest, spec, matches))
      else Found(inAny + Rejected(rest, spec, matches))
  {
    if |rest| == 0 {
      assert inRange + [] == inRange && inAny + [] == inAny;
    } else {
      var x := rest[0];
      var m := InstanceMatch(x, spec, matches);
      SomeRaisesCons(rest, spec, matches);
      if m == Matches {
        ScanFromFilters(rest[1..], spec, matches, inRange + [x], inAny);
        assert (inRange + [x]) + Selected(rest[1..], spec, matches) == inRange + Selected(rest, spec, matches);
        assert Rejected(rest, spec, matches) == Rejected(rest[1..], spec, matches);
      } else if m != MatchError {
        ScanFromFilters(rest[1..], spec, matches, inRange, inAny + [x]);
        assert (inAny + [x]) + Rejected(rest[1..], spec, matches) == inAny + Rejected(rest, spec, matches);
        assert Selected(rest, spec, matches) == Selected(rest[1..], spec, matches);
      }
    }
  }

  /** The scan from the start, in the filter formulation. */
  lemma ScanFilters(spec: string, instances: seq<Instance>, matches: Matcher)
    ensures Scan(spec, instances, matches) ==
      if SomeRaises(instances, spec, matches) then LookupFailed
      else if |Selected(instances, spec, matches)| > 0 then Found(Selected(instances, spec, matches))
      else Found(Rejected(instances, spec, matches))
  {
    ScanFromFilters(instances, spec, matches, [], []);
    assert [] + Selected(instances, spec, matches) == Selected(instances, spec, matches);
    assert [] + Rejected(instances, spec, matches) == Rejected(instances, spec, matches);
  }

  /** `find_crossconnect`: a query for a number, a scan with `range_matches` otherwise. */
  method FindCrossconnect(spec: string, instances: seq<Instance>) returns (r: Lookup)
    ensures r == Crossconnects(spec, instances)
  {
    if IsNumeric(spec) {
      var w := WithSTag(instances, DigitsValue(spec));
      if |w| > 0 {
        return Found(w);
      }
      return NoneFound;
    }
    r := ScanCrossconnects(spec, instances, RangeMatches);
  }

  /** The instances with s-tag `n` are exactly the stored ones with that s-tag. */
  lemma {:induction false} WithSTagSpec(instances: seq<Instance>, n: int)
    ensures forall x :: x in WithSTag(instances, n) <==> x in instances && x.sTag == Some(n)
  {
    if |instances| > 0 {
      WithSTagSpec(instances[1..], n);
      assert instances == [instances[0]] + instances[1..];
    }
  }

  /** For a number, `find_crossconnect` is the instances with that s-tag, and `None`
      rather than an empty list when there are none; it never raises. */
  lemma FindNumeric(spec: string, instances: seq<Instance>)
    requires IsNumeric(spec)
    ensures Crossconnects(spec, instances) != LookupFailed
    ensures Crossconnects(spec, instances) == NoneFound <==>
      forall x :: x in instances ==> x.sTag != Some(DigitsValue(spec))
    ensures Crossconnects(spec, instances).Found? ==>
      |Crossconnects(spec, instances).instances| > 0
      && forall x :: x in Crossconnects(spec, instances).instances <==> x in instances && x.sTag == Some(DigitsValue(spec))
  {
    var w := WithSTag(instances, DigitsValue(spec));
    WithSTagSpec(instances, DigitsValue(spec));
    if |w| > 0 {
      assert w[0] in w;
    }
  }

  /** The instances the matcher answers `True` for are those of the list that it answers `True` for. */
  lemma {:induction false} SelectedSpec(instances: seq<Instance>, spec: string, matches: Matcher)
    ensures forall x :: x in Selected(instances, spec, matches) <==> x in instances && InstanceMatch(x, spec, matches) == Matches
  {
    if |instances| > 0 {
      SelectedSpec(instances[1..], spec, matches);
      assert instances == [instances[0]] + instances[1..];
    }
  }

  /** When none raises and none matches, `fcsis_any` is every instance. */
  lemma {:induction false} RejectedAll(instances: seq<Instance>, spec: string, matches: Matcher)
    requires !SomeRaises(instances, spec, matches)
    requires |Selected(instances, spec, matches)| == 0
    ensures Rejected(instances, spec, matches) == instances
  {
    if |instances| > 0 {
      assert InstanceMatch(instances[0], spec, matches) != MatchError;
      forall j | 0 <= j < |instances[1..]|
        ensures InstanceMatch(instances[1..][j], spec, matches) != MatchError
      {
        assert instances[1..][j] == instances[j + 1];
      }
      RejectedAll(instances[1..], spec, matches);
      assert instances == [instances[0]] + instances[1..];
    }
  }

  /** For a specification that is not a number, `find_crossconnect` never returns `None`.
      It raises exactly when some instance makes `range_matches` raise; otherwise it gives
      the instances in range when there are any, and else every instance. */
  lemma FindRange(spec: string, instances: seq<Instance>)
    requires !IsNumeric(spec)
    ensures Crossconnects(spec, instances) != NoneFound
    ensures Crossconnects(spec, instances) == LookupFailed <==> SomeRaises(instances, spec, RangeMatches)
    ensures Crossconnects(spec, instances).Found? ==>
      var s := Crossconnects(spec, instances).instances;
      (|s| > 0 && forall x :: x in s <==> x in instances && InstanceMatch(x, spec, RangeMatches) == Matches)
      || ((forall x :: x in instances ==> InstanceMatch(x, spec, RangeMatches) != Matches) && s == instances)
  {
    ScanFilters(spec, instances, RangeMatches);
    SelectedSpec(instances, spec, RangeMatches);
    if !SomeRaises(instances, spec, RangeMatches) && |Selected(instances, spec, RangeMatches)| == 0 {
      RejectedAll(instances, spec, RangeMatches);
    }
  }

  /** The DELETE `remove_crossconnect` sends for one instance. */
  function RemoveRequest(i: Instance, onos: OnosInfo): Request {
    Request(DELETE, onos.url + XconnectPath, onos.user, onos.password,
      Some(JObject([("deviceId", StringOrNull(i.switchDatapathId)), ("vlanId", IntOrNull(i.sTag))])))
  }

  /** The run `run` comes after the effects `e`. */
  function After<T>(e: seq<Effect>, run: Run<T>): Run<T> {
    Run(e + run.effects, run.outcome)
  }

  /** `remove_crossconnect(fcsis)`: per instance, in order, a DELETE and, on status 204, a save;
      the first failure ends the loop. */
  function RemoveAll(fcsis: seq<Instance>, c: Controller): Run<()> {
    if |fcsis| == 0 then Run([], Ok(()))
    else
      var onos := FabricOnosInfo(fcsis[0].owner);
      if onos.None? then Run([], Raised(NoOnosService))
      else
        var req := RemoveRequest(fcsis[0], onos.value);
        if c.status(req) != 204 then Run([Sent(req)], Raised(RemoveFailed(c.status(req))))
        else After([Sent(req), Saved(fcsis[0].id)], RemoveAll(fcsis[1..], c))
  }

  method RemoveCrossconnect(fcsis: seq<Instance>, c: Controller) returns (run: Run<()>)
    ensures run == RemoveAll(fcsis, c)
  {
    var effects: seq<Effect> := [];
    var i := 0;
    while i < |fcsis|
      invariant 0 <= i <= |fcsis|
      invariant RemoveAll(fcsis, c) == After(effects, RemoveAll(fcsis[i..], c))
    {
      assert fcsis[i..][1..] == fcsis[i + 1..];
      var onos := FabricOnosInfo(fcsis[i].owner);
      if onos.None? {
        return Run(effects, Raised(NoOnosService));
      }
      var req := RemoveRequest(fcsis[i], onos.value);
      var status := c.status(req);
      if status != 204 {
        return Run(effects + [Sent(req)], Raised(RemoveFailed(status)));
      }
      ghost var rest := RemoveAll(fcsis[i + 1..], c);
      assert (effects + [Sent(req), Saved(fcsis[i].id)]) + rest.effects == effects + ([Sent(req), Saved(fcsis[i].id)] + rest.effects);
      effects := effects + [Sent(req), Saved(fcsis[i].id)];
      i := i + 1;
    }
    return Run(effects, Ok(()));
  }

  /** The removal of one instance goes through: an ONOS provider exists and the DELETE answers 204. */
  predicate RemovalSucceeds(i: Instance, c: Controller) {
    FabricOnosInfo(i.owner).Some? && c.status(RemoveRequest(i, FabricOnosInfo(i.owner).value)) == 204
  }

  /** The DELETE and the save of one instance whose removal goes through. */
  function RemovalEffects(i: Instance, c: Controller): seq<Effect>
    requires RemovalSucceeds(i, c)
  {
    [Sent(RemoveRequest(i, FabricOnosInfo(i.owner).value)), Saved(i.id)]
  }

  /** The effects of removing a list of instances whose removals all go through. */
  function AllRemovalEffects(fcsis: seq<Instance>, c: Controller): seq<Effect>
    requires forall j :: 0 <= j < |fcsis| ==> RemovalSucceeds(fcsis[j], c)
  {
    if |fcsis| == 0 then [] else RemovalEffects(fcsis[0], c) + AllRemovalEffects(fcsis[1..], c)
  }

  /** When every removal goes through, each instance gets its DELETE and then its save, in order. */
  lemma {:induction false} RemoveAllSucceeds(fcsis: seq<Instance>, c: Controller)
    requires forall j :: 0 <= j < |fcsis| ==> RemovalSucceeds(fcsis[j], c)
    ensures RemoveAll(fcsis, c) == Run(AllRemovalEffects(fcsis, c), Ok(()))
  {
    if |fcsis| > 0 {
      RemoveAllSucceeds(fcsis[1..], c);
    }
  }

  /** The first removal that fails ends the run with its own failure: the instances before
      it are removed and saved, it is not saved, and those after it are not touched. */
  lemma {:induction false} RemoveAllFirstFailure(fcsis: seq<Instance>, c: Controller, k: nat)
    requires k < |fcsis| && !RemovalSucceeds(fcsis[k], c)
    requires forall j :: 0 <= j < k ==> RemovalSucceeds(fcsis[j], c)
    ensures RemoveAll(fcsis, c).outcome.Raised?
    ensures RemoveAll(fcsis, c).effects == AllRemovalEffects(fcsis[..k], c) + RemoveAll([fcsis[k]], c).effects
    ensures RemoveAll(fcsis, c).outcome == RemoveAll([fcsis[k]], c).outcome
  {
    if k == 0 {
      assert AllRemovalEffects(fcsis[..0], c) == [];
    } else {
      RemoveAllFirstFailure(fcsis[1..], c, k - 1);
      assert fcsis[1..][..k - 1] == fcsis[..k][1..];
      assert fcsis[1..][k - 1] == fcsis[k];
    }
  }

  /** Each DELETE carries the instance's switch as "deviceId" and its s-tag as "vlanId". */
  lemma RemoveRequestBody(i: Instance, onos: OnosInfo)
    ensures RemoveRequest(i, onos).verb == DELETE
    ensures RemoveRequest(i, onos).url == onos.url + "/onos/segmentrouting/xconnect"
    ensures RemoveRequest(i, onos).body.Some? && RemoveRequest(i, onos).body.value.JObject?
    ensures Keys(RemoveRequest(i, onos).body.value.members) == ["deviceId", "vlanId"]
    ensures RemoveRequest(i, onos).body.value.members[0].1 == StringOrNull(i.switchDatapathId)
    ensures RemoveRequest(i, onos).body.value.members[1].1 == IntOrNull(i.sTag)
  {
    var m := RemoveRequest(i, onos).body.value.members;
    assert m[1..][1..] == [];
    assert Keys(m[1..]) == [m[1].0] + Keys(m[1..][1..]);
  }

  /** What `Helpers.get_fabric_onos_info` is to the GET loop; the loop is stated for any lookup
      and used with `Helpers.FabricOnosInfo`. */
  type OnosLookup = Service -> Option<OnosInfo>

  /** The GET `check_switch_port_change` sends to read the controller's xconnects. */
  function GetRequest(onos: OnosInfo): Request {
    Request(GET, onos.url + XconnectPath, onos.user, onos.password, None)
  }

  /** An xconnect on the instance's switch whose endpoints lack the mapping's BNG port. */
  predicate Drifts(fcsi: Instance, x: Xconnect, bngPort: int) {
    x.deviceId == PyStr(fcsi.switchDatapathId) && bngPort !in x.endpoints
  }

  /** The instance, once per drifting xconnect, in the controller's order. */
  function Drifted(fcsi: Instance, xconnects: seq<Xconnect>, bngPort: int): seq<Instance> {
    if |xconnects| == 0 then []
    else (if Drifts(fcsi, xconnects[0], bngPort) then [fcsi] else []) + Drifted(fcsi, xconnects[1..], bngPort)
  }

  /** Number of drifting xconnects. */
  function DriftCount(fcsi: Instance, xconnects: seq<Xconnect>, bngPort: int): nat {
    if |xconnects| == 0 then 0
    else (if Drifts(fcsi, xconnects[0], bngPort) then 1 else 0) + DriftCount(fcsi, xconnects[1..], bngPort)
  }

  /** `Drifted` lists the instance itself, once per drifting xconnect, and nothing when none drifts. */
  lemma {:induction false} DriftedSpec(fcsi: Instance, xconnects: seq<Xconnect>, bngPort: int)
    ensures |Drifted(fcsi, xconnects, bngPort)| == DriftCount(fcsi, xconnects, bngPort)
    ensures forall i :: 0 <= i < |Drifted(fcsi, xconnects, bngPort)| ==> Drifted(fcsi, xconnects, bngPort)[i] == fcsi
    ensures DriftCount(fcsi, xconnects, bngPort) == 0 <==>
      forall j :: 0 <= j < |xconnects| ==> !Drifts(fcsi, xconnects[j], bngPort)
  {
    if |xconnects| > 0 {
      DriftedSpec(fcsi, xconnects[1..], bngPort);
      assert forall j :: 1 <= j < |xconnects| ==> xconnects[j] == xconnects[1..][j - 1];
    }
  }

  /** What `check_switch_port_change` does for one instance found: a GET to the instance's
      controller, a raise on any status but 200, and the instance once per drifting xconnect. */
  function ProbeStep(fcsi: Instance, bngPort: int, c: Controller, lookup: OnosLookup): Run<seq<Instance>> {
    var onos := lookup(fcsi.owner);
    if onos.None? then Run([], Raised(NoOnosService))
    else
      var req := GetRequest(onos.value);
      if c.status(req) != 200 then Run([Sent(req)], Raised(GetFailed(c.status(req))))
      else Run([Sent(req)], Ok(Drifted(fcsi, c.xconnects(req), bngPort)))
  }

  /** The GET loop of `check_switch_port_change` from the instances still to probe, the
      effects so far and the list `remove_xconnect` built so far: the steps in order, up
      to the first raise. */
  function ProbeFrom(rest: seq<Instance>, bngPort: int, c: Controller, lookup: OnosLookup,
                     effects: seq<Effect>, removeXconnect: seq<Instance>): Run<seq<Instance>>
  {
    if |rest| == 0 then Run(effects, Ok(removeXconnect))
    else
      var st := ProbeStep(rest[0], bngPort, c, lookup);
      if st.outcome.Raised? then Run(effects + st.effects, st.outcome)
      else ProbeFrom(rest[1..], bngPort, c, lookup, effects + st.effects, removeXconnect + st.outcome.value)
  }

  /** The GET loop over all instances found. */
  function Probe(fcsis: seq<Instance>, bngPort: int, c: Controller, lookup: OnosLookup): Run<seq<Instance>> {
    ProbeFrom(fcsis, bngPort, c, lookup, [], [])
  }

  /** `check_switch_port_change(model)`: `True` when `find_crossconnect` found instances
      and their drifted xconnects were removed. */
  function SwitchPortCheck(model: BngPortMapping, instances: seq<Instance>, c: Controller): Run<bool> {
    var l := Crossconnects(model.sTag, instances);
    if l.LookupFailed? then Run([], Raised(MatchRaised))
    else if !Nonempty(l) then Run([], Ok(false))
    else
      var p := Probe(l.instances, model.switchPort, c, FabricOnosInfo);
      if p.outcome.Raised? then Run(p.effects, Raised(p.outcome.failure))
      else
        var rm := RemoveAll(p.outcome.value, c);
        Run(p.effects + rm.effects, if rm.outcome.Raised? then Raised(rm.outcome.failure) else Ok(true))
  }

  /** The inner loop of `check_switch_port_change` over one controller answer. */
  method CollectDrifted(fcsi: Instance, xconnects: seq<Xconnect>, bngPort: int) returns (drifted: seq<Instance>)
    ensures drifted == Drifted(fcsi, xconnects, bngPort)
  {
    drifted := [];
    var j := 0;
    while j < |xconnects|
      invariant 0 <= j <= |xconnects|
      invariant drifted + Drifted(fcsi, xconnects[j..], bngPort) == Drifted(fcsi, xconnects, bngPort)
    {
      assert xconnects[j..][1..] == xconnects[j + 1..];
      if xconnects[j].deviceId == PyStr(fcsi.switchDatapathId) {
        if bngPort !in xconnects[j].endpoints {
          drifted := drifted + [fcsi];
        }
      }
      j := j + 1;
    }
    assert xconnects[j..] == [];
  }

  /** One instance of the outer loop of `check_switch_port_change`. */
  method ProbeInstance(fcsi: Instance, bngPort: int, c: Controller, lookup: OnosLookup) returns (run: Run<seq<Instance>>)
    ensures run == ProbeStep(fcsi, bngPort, c, lookup)
  {
    var onos := lookup(fcsi.owner);
    if onos.None? {
      return Run([], Raised(NoOnosService));
    }
    var req := GetRequest(onos.value);
    var status := c.status(req);
    if status != 200 {
      return Run([Sent(req)], Raised(GetFailed(status)));
    }
    var drifted := CollectDrifted(fcsi, c.xconnects(req), bngPort);
    return Run([Sent(req)], Ok(drifted));
  }

  /** The outer loop of `check_switch_port_change`: one GET per instance found. */
  method ProbeCrossconnects(fcsis: seq<Instance>, bngPort: int, c: Controller, lookup: OnosLookup) returns (run: Run<seq<Instance>>)
    ensures run == Probe(fcsis, bngPort, c, lookup)
  {
    var effects: seq<Effect> := [];
    var removeXconnect: seq<Instance> := [];
    var i := 0;
    while i < |fcsis|
      invariant 0 <= i <= |fcsis|
      invariant ProbeFrom(fcsis[i..], bngPort, c, lookup, effects, removeXconnect) == Probe(fcsis, bngPort, c, lookup)
    {
      assert fcsis[i..][1..] == fcsis[i + 1..];
      var st := ProbeInstance(fcsis[i], bngPort, c, lookup);
      if st.outcome.Raised? {
        return Run(effects + st.effects, st.outcome);
      }
      effects := effects + st.effects;
      removeXconnect := removeXconnect + st.outcome.value;
      i := i + 1;
    }
    return Run(effects, Ok(removeXconnect));
  }

  method CheckSwitchPortChange(model: BngPortMapping, instances: seq<Instance>, c: Controller) returns (run: Run<bool>)
    ensures run == SwitchPortCheck(model, instances, c)
  {
    var fcsis := FindCrossconnect(model.sTag, instances);
    if fcsis.LookupFailed? {
      return Run([], Raised(MatchRaised));
    }
    if !Nonempty(fcsis) {
      return Run([], Ok(false));
    }
    var probed := ProbeCrossconnects(fcsis.instances, model.switchPort, c, FabricOnosInfo);
    if probed.outcome.Raised? {
      return Run(probed.effects, Raised(probed.outcome.failure));
    }
    var rm := RemoveCrossconnect(probed.outcome.value, c);
    if rm.outcome.Raised? {
      return Run(probed.effects + rm.effects, Raised(rm.outcome.failure));
    }
    return Run(probed.effects + rm.effects, Ok(true));
  }

  /** From GETs only, the GET loop goes on with GETs only. */
  lemma {:induction false} ProbeFromOnlyGets(rest: seq<Instance>, bngPort: int, c: Controller, lookup: OnosLookup,
                                              effects: seq<Effect>, removeXconnect: seq<Instance>)
    requires forall e :: e in effects ==> e.Sent? && e.request.verb == GET
    ensures forall e :: e in ProbeFrom(rest, bngPort, c, lookup, effects, removeXconnect).effects ==> e.Sent? && e.request.verb == GET
  {
    if |rest| > 0 {
      var st := ProbeStep(rest[0], bngPort, c, lookup);
      if !st.outcome.Raised? {
        ProbeFromOnlyGets(rest[1..], bngPort, c, lookup, effects + st.effects, removeXconnect + st.outcome.value);
      }
    }
  }

  /** The GET loop sends only GETs. */
  lemma ProbeOnlyGets(fcsis: seq<Instance>, bngPort: int, c: Controller, lookup: OnosLookup)
    ensures forall e :: e in Probe(fcsis, bngPort, c, lookup).effects ==> e.Sent? && e.request.verb == GET
  {
    ProbeFromOnlyGets(fcsis, bngPort, c, lookup, [], []);
  }

  /** The GET to the instance's controller goes through: an ONOS provider exists and it answers 200. */
  predicate GetSucceeds(fcsi: Instance, c: Controller, lookup: OnosLookup) {
    lookup(fcsi.owner).Some? && c.status(GetRequest(lookup(fcsi.owner).value)) == 200
  }

  /** The GETs of a list of instances whose GETs all go through. */
  function AllGets(fcsis: seq<Instance>, c: Controller, lookup: OnosLookup): seq<Effect>
    requires forall j :: 0 <= j < |fcsis| ==> GetSucceeds(fcsis[j], c, lookup)
  {
    if |fcsis| == 0 then []
    else
      assert GetSucceeds(fcsis[0], c, lookup);
      [Sent(GetRequest(lookup(fcsis[0].owner).value))] + AllGets(fcsis[1..], c, lookup)
  }

  /** The drifting instances, instance by instance, of a list whose GETs all go through. */
  function AllDrifted(fcsis: seq<Instance>, bngPort: int, c: Controller, lookup: OnosLookup): seq<Instance>
    requires forall j :: 0 <= j < |fcsis| ==> GetSucceeds(fcsis[j], c, lookup)
  {
    if |fcsis| == 0 then []
    else
      assert GetSucceeds(fcsis[0], c, lookup);
      Drifted(fcsis[0], c.xconnects(GetRequest(lookup(fcsis[0].owner).value)), bngPort)
      + AllDrifted(fcsis[1..], bngPort, c, lookup)
  }

  lemma {:induction false} ProbeFromSucceeds(rest: seq<Instance>, bngPort: int, c: Controller, lookup: OnosLookup,
                                              effects: seq<Effect>, removeXconnect: seq<Instance>)
    requires forall j :: 0 <= j < |rest| ==> GetSucceeds(rest[j], c, lookup)
    ensures ProbeFrom(rest, bngPort, c, lookup, effects, removeXconnect)
      == Run(effects + AllGets(rest, c, lookup), Ok(removeXconnect + AllDrifted(rest, bngPort, c, lookup)))
  {
    if |rest| == 0 {
      assert effects + [] == effects && removeXconnect + [] == removeXconnect;
    } else {
      var st := ProbeStep(rest[0], bngPort, c, lookup);
      ProbeFromSucceeds(rest[1..], bngPort, c, lookup, effects + st.effects, removeXconnect + st.outcome.value);
      assert (effects + st.effects) + AllGets(rest[1..], c, lookup) == effects + AllGets(rest, c, lookup);
      assert (removeXconnect + st.outcome.value) + AllDrifted(rest[1..], bngPort, c, lookup)
        == removeXconnect + AllDrifted(rest, bngPort, c, lookup);
    }
  }

  /** When every GET goes through, one GET is sent per instance, in order, and the list to
      remove holds each instance once per xconnect of its switch lacking the BNG port. */
  lemma ProbeSucceedsAll(fcsis: seq<Instance>, bngPort: int, c: Controller, lookup: OnosLookup)
    requires forall j :: 0 <= j < |fcsis| ==> GetSucceeds(fcsis[j], c, lookup)
    ensures Probe(fcsis, bngPort, c, lookup) == Run(AllGets(fcsis, c, lookup), Ok(AllDrifted(fcsis, bngPort, c, lookup)))
  {
    ProbeFromSucceeds(fcsis, bngPort, c, lookup, [], []);
    assert [] + AllGets(fcsis, c, lookup) == AllGets(fcsis, c, lookup);
    assert [] + AllDrifted(fcsis, bngPort, c, lookup) == AllDrifted(fcsis, bngPort, c, lookup);
  }

  /** The first GET that fails ends the loop with its own failure, after the GETs of the instances before it. */
  lemma {:induction false} ProbeFromFirstFailure(rest: seq<Instance>, bngPort: int, c: Controller, lookup: OnosLookup,
                                                  effects: seq<Effect>, removeXconnect: seq<Instance>, k: nat)
    requires k < |rest| && !GetSucceeds(rest[k], c, lookup)
    requires forall j :: 0 <= j < k ==> GetSucceeds(rest[j], c, lookup)
    ensures ProbeFrom(rest, bngPort, c, lookup, effects, removeXconnect)
      == Run(effects + AllGets(rest[..k], c, lookup) + ProbeStep(rest[k], bngPort, c, lookup).effects,
             ProbeStep(rest[k], bngPort, c, lookup).outcome)
  {
    var st := ProbeStep(rest[0], bngPort, c, lookup);
    if k == 0 {
      assert AllGets(rest[..0], c, lookup) == [];
    } else {
      ProbeFromFirstFailure(rest[1..], bngPort, c, lookup, effects + st.effects, removeXconnect + st.outcome.value, k - 1);
      assert rest[1..][..k - 1] == rest[..k][1..];
      assert rest[1..][k - 1] == rest[k];
      assert (effects + st.effects) + AllGets(rest[1..][..k - 1], c, lookup) == effects + AllGets(rest[..k], c, lookup);
    }
  }

  /** `check_switch_port_change` answers `True` exactly when `find_crossconnect` found
      instances and nothing raised, and `False` exactly when it found none. */
  lemma SwitchPortCheckResult(model: BngPortMapping, instances: seq<Instance>, c: Controller)
    ensures SwitchPortCheck(model, instances, c).outcome == Ok(false) <==>
      !Nonempty(Crossconnects(model.sTag, instances)) && !Crossconnects(model.sTag, instances).LookupFailed?
    ensures SwitchPortCheck(model, instances, c).outcome == Ok(true) ==> Nonempty(Crossconnects(model.sTag, instances))
  {
  }

  /** A failing GET raises before any DELETE is sent. */
  lemma GetFailureBeforeRemoval(model: BngPortMapping, instances: seq<Instance>, c: Controller)
    requires SwitchPortCheck(model, instances, c).outcome.Raised?
    requires SwitchPortCheck(model, instances, c).outcome.failure.GetFailed?
    ensures forall e :: e in SwitchPortCheck(model, instances, c).effects ==> e.Sent? && e.request.verb == GET
  {
    var l := Crossconnects(model.sTag, instances);
    if Nonempty(l) {
      var p := Probe(l.instances, model.switchPort, c, FabricOnosInfo);
      ProbeOnlyGets(l.instances, model.switchPort, c, FabricOnosInfo);
      if !p.outcome.Raised? {
        RemoveAllFailures(p.outcome.value, c);
      }
    }
  }

  /** `remove_crossconnect` never raises the GET failure. */
  lemma {:induction false} RemoveAllFailures(fcsis: seq<Instance>, c: Controller)
    ensures RemoveAll(fcsis, c).outcome.Raised? ==> !RemoveAll(fcsis, c).outcome.failure.GetFailed?
  {
    if |fcsis| > 0 {
      RemoveAllFailures(fcsis[1..], c);
    }
  }

  /** The unit run of a run: the result is dropped. */
  function Discard(run: Run<bool>): Run<()> {
    Run(run.effects, if run.outcome.Raised? then Raised(run.outcome.failure) else Ok(()))
  }

  /** `delete_record(model)`: remove what `find_crossconnect(model.s_tag)` found. */
  function DeleteRecordSpec(model: BngPortMapping, instances: seq<Instance>, c: Controller): Run<()> {
    var l := Crossconnects(model.sTag, instances);
    if l.LookupFailed? then Run([], Raised(MatchRaised))
    else if Nonempty(l) then RemoveAll(l.instances, c)
    else Run([], Ok(()))
  }

  /** `sync_record(model)`: a changed s-tag specification removes what the old one covered;
      otherwise the BNG port is checked against the controller. */
  function SyncRecordSpec(model: BngPortMapping, instances: seq<Instance>, c: Controller): Run<()> {
    if Truthy(model.oldSTag) && model.oldSTag.value != model.sTag then
      var l := Crossconnects(model.oldSTag.value, instances);
      if l.LookupFailed? then Run([], Raised(MatchRaised))
      else if Nonempty(l) then RemoveAll(l.instances, c)
      else Run([], Ok(()))
    else Discard(SwitchPortCheck(model, instances, c))
  }

  method SyncRecord(model: BngPortMapping, instances: seq<Instance>, c: Controller) returns (run: Run<()>)
    ensures run == SyncRecordSpec(model, instances, c)
  {
    if Truthy(model.oldSTag) && model.oldSTag.value != model.sTag {
      var fcsis := FindCrossconnect(model.oldSTag.value, instances);
      if fcsis.LookupFailed? {
        return Run([], Raised(MatchRaised));
      }
      if Nonempty(fcsis) {
        run := RemoveCrossconnect(fcsis.instances, c);
      } else {
        run := Run([], Ok(()));
      }
    } else {
      var checked := CheckSwitchPortChange(model, instances, c);
      run := Discard(checked);
    }
  }

  method DeleteRecord(model: BngPortMapping, instances: seq<Instance>, c: Controller) returns (run: Run<()>)
    ensures run == DeleteRecordSpec(model, instances, c)
  {
    var fcsis := FindCrossconnect(model.sTag, instances);
    if fcsis.LookupFailed? {
      return Run([], Raised(MatchRaised));
    }
    if Nonempty(fcsis) {
      run := RemoveCrossconnect(fcsis.instances, c);
    } else {
      run := Run([], Ok(()));
    }
  }

  /** A changed s-tag specification is handled as the deletion of a mapping with the old one:
      no GET is sent and the BNG port plays no part. */
  lemma SyncChangedIsDeleteOfOld(model: BngPortMapping, instances: seq<Instance>, c: Controller)
    requires Truthy(model.oldSTag) && model.oldSTag.value != model.sTag
    ensures SyncRecordSpec(model, instances, c) == DeleteRecordSpec(model.(sTag := model.oldSTag.value), instances, c)
  {
  }

  /** An unchanged or unset old specification runs the switch-port check on the current one,
      with its effects and failures and without its answer. */
  lemma SyncUnchangedIsCheck(model: BngPortMapping, instances: seq<Instance>, c: Controller)
    requires !Truthy(model.oldSTag) || model.oldSTag.value == model.sTag
    ensures SyncRecordSpec(model, instances, c).effects == SwitchPortCheck(model, instances, c).effects
    ensures SyncRecordSpec(model, instances, c).outcome.Raised? <==> SwitchPortCheck(model, instances, c).outcome.Raised?
    ensures SyncRecordSpec(model, instances, c).outcome.Raised? ==>
      SyncRecordSpec(model, instances, c).outcome.failure == SwitchPortCheck(model, instances, c).outcome.failure
  {
  }

  /** `delete_record` end to end: a lookup that raises raises before any request, one that
      finds nothing does nothing, and when every removal goes through, each instance found
      gets its DELETE and then its save, in order, and the deletion succeeds. */
  lemma DeleteRecordRemovesFound(model: BngPortMapping, instances: seq<Instance>, c: Controller)
    ensures Crossconnects(model.sTag, instances).LookupFailed? ==>
      DeleteRecordSpec(model, instances, c) == Run([], Raised(MatchRaised))
    ensures !Nonempty(Crossconnects(model.sTag, instances)) && !Crossconnects(model.sTag, instances).LookupFailed? ==>
      DeleteRecordSpec(model, instances, c) == Run([], Ok(()))
    ensures (Nonempty(Crossconnects(model.sTag, instances))
             && forall j :: 0 <= j < |Crossconnects(model.sTag, instances).instances| ==>
                  RemovalSucceeds(Crossconnects(model.sTag, instances).instances[j], c)) ==>
      DeleteRecordSpec(model, instances, c) == Run(AllRemovalEffects(Crossconnects(model.sTag, instances).instances, c), Ok(()))
  {
    var l := Crossconnects(model.sTag, instances);
    if Nonempty(l) && forall j :: 0 <= j < |l.instances| ==> RemovalSucceeds(l.instances[j], c) {
      RemoveAllSucceeds(l.instances, c);
    }
  }

  /** The first instance found whose removal fails ends `delete_record` with that failure,
      after the DELETEs and saves of the instances found before it. */
  lemma DeleteRecordFirstFailure(model: BngPortMapping, instances: seq<Instance>, c: Controller, k: nat)
    requires Nonempty(Crossconnects(model.sTag, instances))
    requires k < |Crossconnects(model.sTag, instances).instances|
    requires !RemovalSucceeds(Crossconnects(model.sTag, instances).instances[k], c)
    requires forall j :: 0 <= j < k ==> RemovalSucceeds(Crossconnects(model.sTag, instances).instances[j], c)
    ensures DeleteRecordSpec(model, instances, c).outcome.Raised?
    ensures DeleteRecordSpec(model, instances, c).outcome
         == RemoveAll([Crossconnects(model.sTag, instances).instances[k]], c).outcome
    ensures DeleteRecordSpec(model, instances, c).effects
         == AllRemovalEffects(Crossconnects(model.sTag, instances).instances[..k], c)
            + RemoveAll([Crossconnects(model.sTag, instances).instances[k]], c).effects
  {
    RemoveAllFirstFailure(Crossconnects(model.sTag, instances).instances, c, k);
  }

  /** The effects of removals that all go through are the DELETE and the save of each
      instance, and nothing else. */
  lemma {:induction false} AllRemovalEffectsMembers(fcsis: seq<Instance>, c: Controller)
    requires forall x :: x in fcsis ==> RemovalSucceeds(x, c)
    ensures forall x, e :: x in fcsis && e in RemovalEffects(x, c) ==> e in AllRemovalEffects(fcsis, c)
    ensures forall e :: e in AllRemovalEffects(fcsis, c) ==> exists x :: x in fcsis && e in RemovalEffects(x, c)
  {
    if |fcsis| > 0 {
      var rest := fcsis[1..];
      assert forall x :: x in rest ==> x in fcsis;
      AllRemovalEffectsMembers(rest, c);
      assert AllRemovalEffects(fcsis, c) == RemovalEffects(fcsis[0], c) + AllRemovalEffects(rest, c);
      assert forall x :: x in fcsis ==> x == fcsis[0] || x in rest;
      forall e | e in AllRemovalEffects(fcsis, c)
        ensures exists x :: x in fcsis && e in RemovalEffects(x, c)
      {
        if e in RemovalEffects(fcsis[0], c) {
          assert fcsis[0] in fcsis;
        } else {
          assert e in AllRemovalEffects(rest, c);
        }
      }
    }
  }

  /** Deleting a mapping whose s-tag is a number sends a DELETE for, and saves, every
      stored instance carrying that s-tag and no other, and succeeds, when each of those
      removals goes through. */
  lemma DeleteNumericRemovesCarriers(model: BngPortMapping, instances: seq<Instance>, c: Controller)
    requires IsNumeric(model.sTag)
    requires forall x :: x in instances && x.sTag == Some(DigitsValue(model.sTag)) ==> RemovalSucceeds(x, c)
    ensures DeleteRecordSpec(model, instances, c).outcome == Ok(())
    ensures forall x, e :: x in instances && x.sTag == Some(DigitsValue(model.sTag)) && e in RemovalEffects(x, c) ==>
      e in DeleteRecordSpec(model, instances, c).effects
    ensures forall e :: e in DeleteRecordSpec(model, instances, c).effects ==>
      exists x :: x in instances && x.sTag == Some(DigitsValue(model.sTag)) && e in RemovalEffects(x, c)
  {
    FindNumeric(model.sTag, instances);
    var l := Crossconnects(model.sTag, instances);
    if l.Found? {
      var w := l.instances;
      assert forall j :: 0 <= j < |w| ==> w[j] in w;
      RemoveAllSucceeds(w, c);
      AllRemovalEffectsMembers(w, c);
    }
  }
}
