/** The convenience wrapper of a FabricCrossconnectService, as a subscriber's model
    policy calls it: reuse or create the provider instance for the subscriber's
    westbound s-tag, switch and port, and prune links that no longer fit. */
module CrossconnectService {
  import opened PyString
  import opened Records

  /** A subscriber service instance and what `get_westbound_service_instance_properties`
      (with `include_self`) yields for it. */
  datatype Subscriber = Subscriber(id: int, west: Westbound)

  /** The exceptions `_get_west_fields` raises. */
  datatype WestError = SubscriberSTagNone(id: int) | SubscriberDpidUnset(id: int) | SubscriberPortNone(id: int)

  /** The (s_tag, switch_datapath_id, source_port) triple the subscriber needs. */
  datatype Triple = Triple(sTag: int, switchDatapathId: string, sourcePort: int)

  datatype WestFields = West(triple: Triple) | WestRefused(error: WestError)

  /** `_get_west_fields`: the s-tag must be set, then the switch truthy, then the port set. */
  function GetWestFields(sub: Subscriber): (r: WestFields)
    ensures r.West? <==> sub.west.sTag.Some? && Truthy(sub.west.switchDatapathId) && sub.west.switchPort.Some?
    ensures r.West? ==>
      (Some(r.triple.sTag) == sub.west.sTag
       && Some(r.triple.switchDatapathId) == sub.west.switchDatapathId
       && Some(r.triple.sourcePort) == sub.west.switchPort)
    ensures r == WestRefused(SubscriberSTagNone(sub.id)) <==> sub.west.sTag.None?
    ensures r == WestRefused(SubscriberDpidUnset(sub.id)) <==> sub.west.sTag.Some? && !Truthy(sub.west.switchDatapathId)
    ensures r == WestRefused(SubscriberPortNone(sub.id)) <==>
      sub.west.sTag.Some? && Truthy(sub.west.switchDatapathId) && sub.west.switchPort.None?
  {
    var w := sub.west;
    if w.sTag.None? then WestRefused(SubscriberSTagNone(sub.id))
    else if !Truthy(w.switchDatapathId) then WestRefused(SubscriberDpidUnset(sub.id))
    else if w.switchPort.None? then WestRefused(SubscriberPortNone(sub.id))
    else West(Triple(w.sTag.value, w.switchDatapathId.value, w.switchPort.value))
  }

  /** A provider instance carries the triple. */
  predicate HasTriple(i: Instance, t: Triple) {
    i.sTag == Some(t.sTag) && i.switchDatapathId == Some(t.switchDatapathId) && i.sourcePort == Some(t.sourcePort)
  }

  /** An instance of `service` with the triple: what the candidate query selects. */
  predicate IsCandidate(i: Instance, service: Service, t: Triple) {
    i.owner.id == service.id && HasTriple(i, t)
  }

  /** The candidate query, in store order. */
  function Candidates(instances: seq<Instance>, service: Service, t: Triple): (r: seq<Instance>) {
    if |instances| == 0 then []
    else if IsCandidate(instances[0], service, t) then [instances[0]] + Candidates(instances[1..], service, t)
    else Candidates(instances[1..], service, t)
  }

  /** `instances[k]` is the first candidate. */
  predicate FirstCandidateAt(instances: seq<Instance>, service: Service, t: Triple, k: int) {
    0 <= k < |instances| && IsCandidate(instances[k], service, t)
    && forall j :: 0 <= j < k ==> !IsCandidate(instances[j], service, t)
  }

  /** There are no candidates exactly when no instance qualifies, and otherwise the
      first candidate is the first qualifying instance in store order. */
  lemma {:induction false} CandidatesSpec(instances: seq<Instance>, service: Service, t: Triple)
    ensures |Candidates(instances, service, t)| == 0 <==>
      forall j :: 0 <= j < |instances| ==> !IsCandidate(instances[j], service, t)
    ensures forall k :: FirstCandidateAt(instances, service, t, k) ==> Candidates(instances, service, t)[0] == instances[k]
  {
    if |instances| > 0 {
      var rest := instances[1..];
      CandidatesSpec(rest, service, t);
      if !IsCandidate(instances[0], service, t) {
        assert forall j :: 1 <= j < |instances| ==> instances[j] == rest[j - 1];
        forall k | FirstCandidateAt(instances, service, t, k)
          ensures Candidates(instances, service, t)[0] == instances[k]
        {
          assert FirstCandidateAt(rest, service, t, k - 1);
        }
      }
    }
  }

  /** Every candidate qualifies. */
  lemma {:induction false} CandidatesQualify(instances: seq<Instance>, service: Service, t: Triple)
    ensures forall i :: 0 <= i < |Candidates(instances, service, t)| ==> IsCandidate(Candidates(instances, service, t)[i], service, t)
  {
    if |instances| > 0 {
      CandidatesQualify(instances[1..], service, t);
    }
  }

  /** A ServiceInstanceLink from a provider instance to a subscriber. */
  datatype Link = Link(provider: Instance, subscriber: int)

  /** A link of this subscriber whose provider belongs to this service. */
  predicate Owned(l: Link, service: Service, sub: Subscriber) {
    l.subscriber == sub.id && l.provider.owner.id == service.id
  }

  /** A link `validate_links` deletes: owned, with a provider that lacks the triple. */
  predicate Stale(l: Link, service: Service, sub: Subscriber, t: Triple) {
    Owned(l, service, sub) && !HasTriple(l.provider, t)
  }

  /** The links left after the stale ones are deleted, in order. */
  function Prune(links: seq<Link>, service: Service, sub: Subscriber, t: Triple): seq<Link> {
    if |links| == 0 then []
    else if Stale(links[0], service, sub, t) then Prune(links[1..], service, sub, t)
    else [links[0]] + Prune(links[1..], service, sub, t)
  }

  /** The providers of the owned links that carry the triple, in link order. */
  function MatchedProviders(links: seq<Link>, service: Service, sub: Subscriber, t: Triple): seq<Instance> {
    if |links| == 0 then []
    else if Owned(links[0], service, sub) && HasTriple(links[0].provider, t)
    then [links[0].provider] + MatchedProviders(links[1..], service, sub, t)
    else MatchedProviders(links[1..], service, sub, t)
  }

  /** The links that are not this subscriber's links to this service, in order. */
  function Others(links: seq<Link>, service: Service, sub: Subscriber): seq<Link> {
    if |links| == 0 then []
    else if Owned(links[0], service, sub) then Others(links[1..], service, sub)
    else [links[0]] + Others(links[1..], service, sub)
  }

  /** The subscriber has a link. */
  predicate HasSubscribedLink(links: seq<Link>, sub: Subscriber) {
    exists i :: 0 <= i < |links| && links[i].subscriber == sub.id
  }

  /** After pruning, every owned link carries the triple, and no other link is gone. */
  lemma {:induction false} PruneSpec(links: seq<Link>, service: Service, sub: Subscriber, t: Triple)
    ensures forall i :: 0 <= i < |Prune(links, service, sub, t)| ==> !Stale(Prune(links, service, sub, t)[i], service, sub, t)
    ensures Others(Prune(links, service, sub, t), service, sub) == Others(links, service, sub)
    ensures MatchedProviders(Prune(links, service, sub, t), service, sub, t) == MatchedProviders(links, service, sub, t)
  {
    if |links| > 0 {
      PruneSpec(links[1..], service, sub, t);
      var rest := Prune(links[1..], service, sub, t);
      if !Stale(links[0], service, sub, t) {
        assert ([links[0]] + rest)[1..] == rest;
      }
    }
  }

  /** Pruning twice is pruning once: a second `validate_links` deletes nothing. */
  lemma {:induction false} PruneIdempotent(links: seq<Link>, service: Service, sub: Subscriber, t: Triple)
    ensures Prune(Prune(links, service, sub, t), service, sub, t) == Prune(links, service, sub, t)
  {
    if |links| > 0 {
      PruneIdempotent(links[1..], service, sub, t);
      var rest := Prune(links[1..], service, sub, t);
      if !Stale(links[0], service, sub, t) {
        assert ([links[0]] + rest)[1..] == rest;
      }
    }
  }

  /** Every matched provider belongs to this service and carries the triple. */
  lemma {:induction false} MatchedProvidersQualify(links: seq<Link>, service: Service, sub: Subscriber, t: Triple)
    ensures forall i :: 0 <= i < |MatchedProviders(links, service, sub, t)| ==>
      IsCandidate(MatchedProviders(links, service, sub, t)[i], service, t)
    ensures |MatchedProviders(links, service, sub, t)| <= |links|
  {
    if |links| > 0 {
      MatchedProvidersQualify(links[1..], service, sub, t);
    }
  }

  /** What `acquire_service_instance` ends with. */
  datatype Acquired = AcquiredInstance(instance: Instance) | AcquireRefused(error: WestError)

  /** What `validate_links` ends with: `None`, the matched list, or a raise. */
  datatype Validated = NoSubscribedLinks | MatchedList(providers: seq<Instance>) | ValidateRefused(error: WestError)

  /** The stored instances and links the wrapper reads and writes, and the id the next
      saved instance gets. */
  class Store {
    var instances: seq<Instance>
    var links: seq<Link>
    var nextId: int

    constructor (instances: seq<Instance>, links: seq<Link>, nextId: int)
      ensures this.instances == instances && this.links == links && this.nextId == nextId
    {
      this.instances := instances;
      this.links := links;
      this.nextId := nextId;
    }

    /** `acquire_service_instance`: reuse the first candidate or save a new instance,
        then save one link from it to the subscriber. */
    method AcquireServiceInstance(service: Service, sub: Subscriber) returns (r: Acquired)
      modifies this
      ensures GetWestFields(sub).WestRefused? ==>
        r == AcquireRefused(GetWestFields(sub).error) && unchanged(this)
      ensures GetWestFields(sub).West? ==> r.AcquiredInstance?
      ensures r.AcquiredInstance? ==>
        var t := GetWestFields(sub).triple;
        var c := Candidates(old(instances), service, t);
        IsCandidate(r.instance, service, t)
        && links == old(links) + [Link(r.instance, sub.id)]
        && (|c| > 0 ==> r.instance == c[0] && instances == old(instances) && nextId == old(nextId))
        && (|c| == 0 ==> r.instance == Instance(old(nextId), service, Some(t.sTag), Some(t.switchDatapathId), Some(t.sourcePort), false)
                         && instances == old(instances) + [r.instance] && nextId == old(nextId) + 1)
    {
      var west := GetWestFields(sub);
      if west.WestRefused? {
        return AcquireRefused(west.error);
      }
      var t := west.triple;
      var candidates := Candidates(instances, service, t);
      var provider: Instance;
      if |candidates| > 0 {
        CandidatesQualify(instances, service, t);
        provider := candidates[0];
      } else {
        provider := Instance(nextId, service, Some(t.sTag), Some(t.switchDatapathId), Some(t.sourcePort), false);
        instances := instances + [provider];
        nextId := nextId + 1;
      }
      links := links + [Link(provider, sub.id)];
      return AcquiredInstance(provider);
    }

    /** `validate_links`: `None` without reading the westbound values when the subscriber
        has no link; otherwise delete the stale links and return the matching providers. */
    method ValidateLinks(service: Service, sub: Subscriber) returns (r: Validated)
      modifies this
      ensures r == NoSubscribedLinks <==> !HasSubscribedLink(old(links), sub)
      ensures !r.MatchedList? ==> unchanged(this)
      ensures r.ValidateRefused? ==> GetWestFields(sub) == WestRefused(r.error)
      ensures r.MatchedList? ==> GetWestFields(sub).West?
      ensures r.MatchedList? && GetWestFields(sub).West? ==>
        var t := GetWestFields(sub).triple;
        r.providers == MatchedProviders(old(links), service, sub, t)
        && links == Prune(old(links), service, sub, t)
        && instances == old(instances) && nextId == old(nextId)
    {
      if !HasSubscribedLink(links, sub) {
        return NoSubscribedLinks;
      }
      var west := GetWestFields(sub);
      if west.WestRefused? {
        return ValidateRefused(west.error);
      }
      var t := west.triple;
      var matched: seq<Instance> := [];
      var kept: seq<Link> := [];
      var i := 0;
      while i < |links|
        invariant 0 <= i <= |links|
        invariant kept + Prune(links[i..], service, sub, t) == Prune(links, service, sub, t)
        invariant matched + MatchedProviders(links[i..], service, sub, t) == MatchedProviders(links, service, sub, t)
      {
        var l := links[i];
        assert links[i..][1..] == links[i + 1..];
        if Owned(l, service, sub) {
          if HasTriple(l.provider, t) {
            matched := matched + [l.provider];
            kept := kept + [l];
          }
        } else {
          kept := kept + [l];
        }
        i := i + 1;
      }
      links := kept;
      return MatchedList(matched);
    }
  }
}
