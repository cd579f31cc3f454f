/** The model policy of a FabricCrossconnectServiceInstance: delete an instance
    whose links are gone, otherwise copy the westbound s-tag, switch and port into
    the instance's fields, each of which may be written once. */
module CrossconnectPolicy {
  import opened PyString
  import opened Records

  /** The instance fields the policy may write, named as in `update_fields`. */
  datatype Field = STag | SwitchDatapathId | SourcePort

  /** The exceptions `handle_update` raises. */
  datatype PolicyError =
    | WestSTagNone(id: int)
    | WestDpidUnset(id: int)
    | WestPortNone(id: int)
    | ChangingSTag
    | ChangingDpid
    | ChangingSourcePort

  /** What the policy writes to the database: a `save(update_fields=…)` or a `delete()`. */
  datatype Write = SavedFields(fields: seq<Field>) | DeletedRow

  /** How `handle_update` ends: it returns, or raises. */
  datatype Handled = Done | Refused(error: PolicyError)

  /** The state of one instance as the policy sees it: its three fields, its link
      bookkeeping, whether its row is still stored, and what was written so far. */
  datatype Snapshot = Snapshot(
    sTag: Option<int>,
    switchDatapathId: Option<string>,
    sourcePort: Option<int>,
    linkDeletedCount: int,
    hasProvidedLinks: bool,
    stored: bool,
    writes: seq<Write>)

  /** Links were deleted and none is left: the instance is to go. */
  predicate DeletionDue(s: Snapshot) {
    s.linkDeletedCount > 0 && !s.hasProvidedLinks
  }

  /** The deletion branch: the row is deleted if it still exists. */
  function Deleted(s: Snapshot): Snapshot {
    if s.stored then s.(stored := false, writes := s.writes + [DeletedRow]) else s
  }

  /** The adoption of the three checked westbound values `t`, `d`, `p`, field by field:
      an unset field takes the value, a set field that differs raises, and the
      fields changed so far stay changed in memory when a later one raises. */
  function Adopt(s: Snapshot, t: int, d: string, p: int): (Snapshot, Handled) {
    if Some(t) != s.sTag && s.sTag.Some? then (s, Refused(ChangingSTag))
    else
      var s1 := if Some(t) != s.sTag then s.(sTag := Some(t)) else s;
      var f1: seq<Field> := if Some(t) != s.sTag then [STag] else [];
      if Some(d) != s1.switchDatapathId && Truthy(s1.switchDatapathId) then (s1, Refused(ChangingDpid))
      else
        var s2 := if Some(d) != s1.switchDatapathId then s1.(switchDatapathId := Some(d)) else s1;
        var f2 := if Some(d) != s1.switchDatapathId then f1 + [SwitchDatapathId] else f1;
        if Some(p) != s2.sourcePort && s2.sourcePort.Some? then (s2, Refused(ChangingSourcePort))
        else
          var s3 := if Some(p) != s2.sourcePort then s2.(sourcePort := Some(p)) else s2;
          var f3 := if Some(p) != s2.sourcePort then f2 + [SourcePort] else f2;
          (if |f3| > 0 then s3.(writes := s3.writes + [SavedFields(f3)]) else s3, Done)
  }

  /** `handle_update` on an instance in state `s`, with westbound values `w`. */
  function HandleUpdateSpec(s: Snapshot, id: int, w: Westbound): (Snapshot, Handled) {
    if DeletionDue(s) then (Deleted(s), Done)
    else if !s.hasProvidedLinks then (s, Done)
    else if w.sTag.None? then (s, Refused(WestSTagNone(id)))
    else if !Truthy(w.switchDatapathId) then (s, Refused(WestDpidUnset(id)))
    else if w.switchPort.None? then (s, Refused(WestPortNone(id)))
    else Adopt(s, w.sTag.value, w.switchDatapathId.value, w.switchPort.value)
  }

  /** The fields whose value differs between `s` and `s'`, in the order s_tag, switch_datapath_id, source_port. */
  function ChangedFields(s: Snapshot, s': Snapshot): seq<Field> {
    (if s.sTag != s'.sTag then [STag] else [])
    + (if s.switchDatapathId != s'.switchDatapathId then [SwitchDatapathId] else [])
    + (if s.sourcePort != s'.sourcePort then [SourcePort] else [])
  }

  /** The deletion rule: when links were deleted and none is left, the row is deleted if it is
      still stored, no field changes and nothing else is written, whatever the westbound values. */
  lemma DeletionRule(s: Snapshot, id: int, w: Westbound)
    requires DeletionDue(s)
    ensures HandleUpdateSpec(s, id, w).1 == Done
    ensures var s' := HandleUpdateSpec(s, id, w).0;
      s'.sTag == s.sTag && s'.switchDatapathId == s.switchDatapathId && s'.sourcePort == s.sourcePort
      && !s'.stored && s'.writes == s.writes + (if s.stored then [DeletedRow] else [])
  {
  }

  /** Without provided links and without a deletion due, nothing happens. */
  lemma NoLinksNoChange(s: Snapshot, id: int, w: Westbound)
    requires !DeletionDue(s) && !s.hasProvidedLinks
    ensures HandleUpdateSpec(s, id, w) == (s, Done)
  {
  }

  /** The westbound values are checked in the order s-tag, switch, port, before any field changes. */
  lemma CheckOrder(s: Snapshot, id: int, w: Westbound)
    requires !DeletionDue(s) && s.hasProvidedLinks
    ensures w.sTag.None? ==> HandleUpdateSpec(s, id, w) == (s, Refused(WestSTagNone(id)))
    ensures w.sTag.Some? && !Truthy(w.switchDatapathId) ==>
      HandleUpdateSpec(s, id, w) == (s, Refused(WestDpidUnset(id)))
    ensures w.sTag.Some? && Truthy(w.switchDatapathId) && w.switchPort.None? ==>
      HandleUpdateSpec(s, id, w) == (s, Refused(WestPortNone(id)))
  {
  }

  /** A raise writes nothing: `save` is only reached when every check passed. */
  lemma RefusalWritesNothing(s: Snapshot, id: int, w: Westbound)
    requires HandleUpdateSpec(s, id, w).1.Refused?
    ensures HandleUpdateSpec(s, id, w).0.writes == s.writes
    ensures HandleUpdateSpec(s, id, w).0.stored == s.stored
  {
  }

  /** Write-once: a field that is already set keeps its value, whatever the outcome. */
  lemma SetFieldsKept(s: Snapshot, id: int, w: Westbound)
    ensures var s' := HandleUpdateSpec(s, id, w).0;
      (s.sTag.Some? ==> s'.sTag == s.sTag)
      && (Truthy(s.switchDatapathId) ==> s'.switchDatapathId == s.switchDatapathId)
      && (s.sourcePort.Some? ==> s'.sourcePort == s.sourcePort)
  {
  }

  /** A set s-tag that differs from the westbound one is refused, once the westbound values are complete. */
  lemma ChangingSTagRefused(s: Snapshot, id: int, w: Westbound)
    requires !DeletionDue(s) && s.hasProvidedLinks
    requires w.sTag.Some? && Truthy(w.switchDatapathId) && w.switchPort.Some?
    requires s.sTag.Some? && s.sTag != w.sTag
    ensures HandleUpdateSpec(s, id, w) == (s, Refused(ChangingSTag))
  {
  }

  /** A set switch that differs is refused after the s-tag was adopted in memory, before anything is saved. */
  lemma ChangingDpidRefused(s: Snapshot, id: int, w: Westbound)
    requires !DeletionDue(s) && s.hasProvidedLinks
    requires w.sTag.Some? && Truthy(w.switchDatapathId) && w.switchPort.Some?
    requires s.sTag.None? || s.sTag == w.sTag
    requires Truthy(s.switchDatapathId) && s.switchDatapathId != w.switchDatapathId
    ensures HandleUpdateSpec(s, id, w) == (s.(sTag := w.sTag), Refused(ChangingDpid))
  {
  }

  /** A set port that differs is refused after the s-tag and switch were adopted in memory. */
  lemma ChangingSourcePortRefused(s: Snapshot, id: int, w: Westbound)
    requires !DeletionDue(s) && s.hasProvidedLinks
    requires w.sTag.Some? && Truthy(w.switchDatapathId) && w.switchPort.Some?
    requires s.sTag.None? || s.sTag == w.sTag
    requires !Truthy(s.switchDatapathId) || s.switchDatapathId == w.switchDatapathId
    requires s.sourcePort.Some? && s.sourcePort != w.switchPort
    ensures HandleUpdateSpec(s, id, w) ==
      (s.(sTag := w.sTag, switchDatapathId := w.switchDatapathId), Refused(ChangingSourcePort))
  {
  }

  /** After a successful update with provided links, all three fields hold the westbound values. */
  lemma SuccessAdoptsAll(s: Snapshot, id: int, w: Westbound)
    requires !DeletionDue(s) && s.hasProvidedLinks
    requires HandleUpdateSpec(s, id, w).1 == Done
    ensures var s' := HandleUpdateSpec(s, id, w).0;
      s'.sTag == w.sTag && s'.switchDatapathId == w.switchDatapathId && s'.sourcePort == w.switchPort
      && s'.stored == s.stored && s'.linkDeletedCount == s.linkDeletedCount && s'.hasProvidedLinks
  {
  }

  /** A successful update saves once, with exactly the fields whose value changed, and
      does not save when nothing changed. */
  lemma SavesChangedFields(s: Snapshot, id: int, w: Westbound)
    requires !DeletionDue(s)
    requires HandleUpdateSpec(s, id, w).1 == Done
    ensures var s' := HandleUpdateSpec(s, id, w).0;
      var f := ChangedFields(s, s');
      s'.writes == s.writes + (if |f| > 0 then [SavedFields(f)] else [])
  {
    if s.hasProvidedLinks {
      var t, d, p := w.sTag.value, w.switchDatapathId.value, w.switchPort.value;
      var a := if Some(t) != s.sTag then [STag] else [];
      var b := if Some(d) != s.switchDatapathId then [SwitchDatapathId] else [];
      var c := if Some(p) != s.sourcePort then [SourcePort] else [];
      var f1: seq<Field> := a;
      var f2 := if Some(d) != s.switchDatapathId then f1 + [SwitchDatapathId] else f1;
      var f3 := if Some(p) != s.sourcePort then f2 + [SourcePort] else f2;
      assert f2 == a + b;
      assert f3 == a + b + c;
      var s' := HandleUpdateSpec(s, id, w).0;
      assert s'.sTag == Some(t) && s'.switchDatapathId == Some(d) && s'.sourcePort == Some(p);
      assert ChangedFields(s, s') == a + b + c;
    }
  }

  /** Running the policy again with the same westbound values changes and writes nothing. */
  lemma UpdateIdempotent(s: Snapshot, id: int, w: Westbound)
    requires !DeletionDue(s) && s.hasProvidedLinks
    requires HandleUpdateSpec(s, id, w).1 == Done
    ensures var s' := HandleUpdateSpec(s, id, w).0;
      HandleUpdateSpec(s', id, w) == (s', Done)
  {
  }

  /** A FabricCrossconnectServiceInstance as the policy updates it in place. */
  class CrossconnectInstance {
    const id: int
    var sTag: Option<int>
    var switchDatapathId: Option<string>
    var sourcePort: Option<int>
    var linkDeletedCount: int
    var hasProvidedLinks: bool
    var stored: bool
    var writes: seq<Write>

    function State(): Snapshot
      reads this
    {
      Snapshot(sTag, switchDatapathId, sourcePort, linkDeletedCount, hasProvidedLinks, stored, writes)
    }

    constructor (id: int, s: Snapshot)
      ensures this.id == id && State() == s
    {
      this.id := id;
      sTag := s.sTag;
      switchDatapathId := s.switchDatapathId;
      sourcePort := s.sourcePort;
      linkDeletedCount := s.linkDeletedCount;
      hasProvidedLinks := s.hasProvidedLinks;
      stored := s.stored;
      writes := s.writes;
    }

    /** `handle_update`, with `west` the values `get_westbound_service_instance_properties` yields. */
    method HandleUpdate(west: Westbound) returns (r: Handled)
      modifies this
      ensures (State(), r) == HandleUpdateSpec(old(State()), id, west)
    {
      if linkDeletedCount > 0 && !hasProvidedLinks {
        if stored {
          stored := false;
          writes := writes + [DeletedRow];
        }
        return Done;
      }
      if !hasProvidedLinks {
        return Done;
      }
      var updated: seq<Field> := [];
      if west.sTag.None? {
        return Refused(WestSTagNone(id));
      }
      if !Truthy(west.switchDatapathId) {
        return Refused(WestDpidUnset(id));
      }
      if west.switchPort.None? {
        return Refused(WestPortNone(id));
      }
      var t, d, p := west.sTag.value, west.switchDatapathId.value, west.switchPort.value;
      if Some(t) != sTag {
        if sTag.Some? {
          return Refused(ChangingSTag);
        }
        sTag := Some(t);
        updated := updated + [STag];
        assert updated == [STag];
      }
      if Some(d) != switchDatapathId {
        if Truthy(switchDatapathId) {
          return Refused(ChangingDpid);
        }
        switchDatapathId := Some(d);
        updated := updated + [SwitchDatapathId];
      }
      if Some(p) != sourcePort {
        if sourcePort.Some? {
          return Refused(ChangingSourcePort);
        }
        sourcePort := Some(p);
        updated := updated + [SourcePort];
      }
      if |updated| > 0 {
        writes := writes + [SavedFields(updated)];
      }
      return Done;
    }

    /** `handle_create` is `handle_update`. */
    method HandleCreate(west: Westbound) returns (r: Handled)
      modifies this
      ensures (State(), r) == HandleUpdateSpec(old(State()), id, west)
    {
      r := HandleUpdate(west);
    }
  }
}
