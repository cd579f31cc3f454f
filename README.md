# fabric-crossconnect, modelled in Dafny

fabric-crossconnect is an XOS service that connects subscriber traffic to a BNG (broadband network gateway) through ONOS segment-routing xconnects. This project models its core in Dafny and proves properties of the model:

- the validation of a BNGPortMapping's s-tag specification (`validate_range`) and its `save`;
- the shared helpers: `format_url`, `get_fabric_onos_info` and `range_matches`;
- the model policy of a FabricCrossconnectServiceInstance: deletion, write-once adoption of the westbound fields, and the save of the changed fields;
- the service's convenience wrapper: `_get_west_fields`, `acquire_service_instance` and `validate_links`;
- the BNGPortMapping sync step: `find_crossconnect`, `check_switch_port_change`, `remove_crossconnect`, `sync_record` and `delete_record`;
- the FabricCrossconnectServiceInstance sync step: `get_bng_port`, the POST of `sync_record`, and the `enacted`-guarded DELETE of `delete_record`.

Modules, one per file:

| file | module | models |
|---|---|---|
| `pystring.dfy` | `PyString` | the Python string operations the code relies on: `split` (empty pieces kept), `strip`, `lower`, `in`, `isnumeric`, and what `int()` accepts |
| `records.dfy` | `Records` | the stored entities, JSON bodies, requests, the controller as the sync steps see it (a status per request, an xconnect list per GET), and the runs of a sync operation (its effects in order, then `Ok` or the exception raised) |
| `tagspec.dfy` | `TagSpec` | the comma/strip/dash tokenisation that `validate_range` and `range_matches` share |
| `models.dfy` | `BngModels` | `validate_range` and `save` |
| `helpers.dfy` | `Helpers` | `format_url`, `get_fabric_onos_info` and `range_matches` |
| `policy.dfy` | `CrossconnectPolicy` | the model policy; the instance is a class whose `HandleUpdate` updates its fields in place |
| `convenience.dfy` | `CrossconnectService` | the convenience wrapper; a `Store` class holds the instances and links it reads and writes |
| `syncbng.dfy` | `SyncBngPortMapping` | the BNGPortMapping sync step; each loop is a method proved against a specification function |
| `syncxconnect.dfy` | `SyncCrossconnectInstance` | the FabricCrossconnectServiceInstance sync step |

The HTTP calls are effects. A sync operation returns a `Run`: the requests it sent and the instances it saved, in order, then how it ended. The controller's answers are a parameter `Controller`. So a property such as "the first failing DELETE stops the loop, and the instances before it stay saved" is a statement about the `Run`.

## Behaviour kept as written

- xos/synchronizer/steps/sync_fabric_crossconnect_service_instance.py carries its own copies of `format_url` (lines 31-36) and `get_fabric_onos_info` (lines 38-56, applied to `si.owner`). They are the same code as in helpers.py and are modelled by `Helpers.FormatUrl` and `Helpers.FabricOnosInfo`.
- `validate_range` unpacks `this_range.split("-")` outside its `try`. A token with two or more dashes therefore escapes with a plain ValueError, not with the validation error. This is `UnpackFailure` in the model, proved by `BngModels.TwoDashesEscape`.
- `range_matches` answers `True`, `False` or `None`, or raises. A bare number is passed over, so `range_matches(123, "123")` is `None`, not `True`. An "any" token ends the scan with `False`. `find_crossconnect` puts an instance in the "any" list whenever the answer is not `True`.
- `find_crossconnect` returns `None` for a number that no instance carries. For a non-numeric specification it returns the "any" list, which holds every instance when none is in range.
- The sync step of FabricCrossconnectServiceInstance posts to `/onos/segmentsrouting/xconnect` and deletes from `/onos/segmentrouting/xconnect`. Its DELETE body names the s-tag `vlanID`, whereas the BNGPortMapping step's DELETE names it `vlanId`. `SyncCrossconnectInstance.RequestsDisagree` states both differences.
- In the policy, a refused change of switch or port raises after the earlier fields were adopted in memory. Nothing is saved in that case.

## Model

| member | source | states |
|---|---|---|
| `TagSpec.TokensSingle` | xos/synchronizer/models/models.py:32-33 | a pattern without a comma is the single token `pattern.strip()` |
| `TagSpec.TokensFirst` | xos/synchronizer/models/models.py:32-33 | the tokens of `a + "," + b` are `a.strip()` followed by the tokens of `b` |
| `TagSpec.TwoHalvesIffOneDash` | xos/synchronizer/models/models.py:34-35 | `tok.split("-")` unpacks into two halves exactly when `tok` has one dash |
| `BngModels.ValidateTokensSpec` | xos/synchronizer/models/models.py:31-47 | `validate_range` accepts exactly when every token is a range with two `int()` halves, "any" in any case, or an `int()` literal; a refusal carries the message "Malformed range " followed by the whole pattern |
| `BngModels.ValidateFirstFailure` | xos/synchronizer/models/models.py:31-47 | the verdict is that of the first token that fails, whatever follows it |
| `BngModels.ValidateFirst` | xos/synchronizer/models/models.py:32-47 | a first token that passes hands the verdict to the rest of the pattern; one that fails decides it |
| `BngModels.ManyDashesUnpack` | xos/synchronizer/models/models.py:34-35 | a token with two or more dashes fails the two-way unpack |
| `BngModels.HalvesAt` | xos/synchronizer/models/models.py:35-38 | with one dash, the halves are the stripped text before and after it |
| `BngModels.NumericTokenOk` | xos/synchronizer/models/models.py:43-47 | an all-digit token passes the `int()` check |
| `BngModels.RangeTokenVerdict` | xos/synchronizer/models/models.py:34-40 | `lo-hi` passes exactly when both stripped halves are `int()` literals, and is malformed otherwise |
| `BngModels.ValidateSingle` | xos/synchronizer/models/models.py:31-47 | a pattern without a comma is accepted exactly when its one token passes, and refused with that token's failure otherwise |
| `BngModels.AcceptedCons` | xos/synchronizer/models/models.py:31-47 | `a + "," + b` is accepted exactly when `a`'s token passes and `b` is accepted |
| `BngModels.NumberAccepted` | xos/synchronizer/models/models.py:43-47 | every number is accepted |
| `BngModels.NumberListAccepted` | xos/synchronizer/models/test_models.py:71-73 | two numbers separated by ", " are accepted |
| `BngModels.RangeTokenAccepted` | xos/synchronizer/models/models.py:34-40 | a single range whose halves `int()` accepts is accepted |
| `BngModels.TightRangeAccepted` | xos/synchronizer/models/test_models.py:80-82 | `lo-hi` is accepted for any two numbers |
| `BngModels.SpacedRangeAccepted` | xos/synchronizer/models/models.py:33-38 | `lo - hi` is accepted: both the token and its halves are stripped |
| `BngModels.LeadingSpaceAccepted` | xos/synchronizer/models/models.py:33 | a leading space does not change whether a single token is accepted |
| `BngModels.RangeListAccepted` | xos/synchronizer/models/test_models.py:84-86 | the shape `lo-hi, lo - hi` is accepted for any four numbers |
| `BngModels.WordRejected` | xos/synchronizer/models/test_models.py:102-107 | a lower-case word other than "any" is refused with "Malformed range " followed by the word |
| `BngModels.HalfRangeRejected` | xos/synchronizer/models/test_models.py:109-114 | a number followed by a bare dash is refused with the validation message |
| `BngModels.TrailingCommaRejected` | xos/synchronizer/models/models.py:32-47 | a trailing comma leaves an empty last token, refused with the message for the whole pattern |
| `BngModels.NumberTrailingCommaRejected` | xos/synchronizer/models/test_models.py:116-121 | a number followed by a comma is refused with the validation message |
| `BngModels.AnyAccepted` | xos/synchronizer/models/models.py:41-42 | "any" in any mix of cases is accepted |
| `BngModels.TwoDashesEscape` | xos/synchronizer/models/models.py:34-36 | three numbers joined by two dashes escape validation with the unpack's ValueError |
| `BngModels.AcceptsSingle` | xos/synchronizer/models/test_models.py:67-69 | "123" is accepted |
| `BngModels.AcceptsAny` | xos/synchronizer/models/test_models.py:75-78 | "ANY" and "any" are accepted |
| `BngModels.RejectsEmpty` | xos/synchronizer/models/test_models.py:88-100 | "" is refused with "Malformed range " |
| `BngModels.RejectsTrailingComma` | xos/synchronizer/models/test_models.py:116-121 | "123," is refused with "Malformed range 123," |
| `BngModels.DoubleDashEscapes` | xos/synchronizer/models/models.py:34-36 | "1-2-3" is an unpack failure, not a validation error |
| `BngModels.Save` | xos/synchronizer/models/models.py:49-52 | the mapping is persisted unchanged exactly when validation accepts its s-tag; otherwise it is refused with `validate_range`'s own verdict, so an escaping unpack failure stays an unpack failure |
| `Helpers.FormatUrl` | xos/synchronizer/steps/helpers.py:24-28 | the result mentions "http"; the URL is kept exactly when it already mentions "http", and otherwise gets "http://" in front |
| `Helpers.FormatUrlIdempotent` | xos/synchronizer/steps/helpers.py:24-28 | normalising twice is normalising once |
| `Helpers.FormatUrlPrefixes` | xos/synchronizer/steps/helpers.py:25-28 | a URL without the letter 'h' gets the prefix |
| `Helpers.FormatUrlExamples` | xos/synchronizer/steps/test_sync_fabric_crossconnect_service_instance.py:105-110 | "foo.com/bar" becomes "http://foo.com/bar", and "http://foo.com/bar" is kept |
| `Helpers.OnosProvidersHead` | xos/synchronizer/steps/helpers.py:32-36 | the filtered list is empty exactly when no provider's lower-cased name contains "onos"; otherwise it starts with the first such provider |
| `Helpers.FirstOnosExists` | xos/synchronizer/steps/helpers.py:32-36 | unless no provider is an ONOS, there is a first one |
| `Helpers.FabricOnosInfoSpec` | xos/synchronizer/steps/helpers.py:30-43 | the lookup fails exactly when no provider is an ONOS, and otherwise returns the first ONOS provider's `format_url("host:port")`, user and password |
| `Helpers.OnosPrefixIsOnos` | xos/synchronizer/steps/helpers.py:32 | a name starting with "onos" marks an ONOS provider |
| `Helpers.SingleOnos` | xos/synchronizer/steps/helpers.py:32-43 | a service with one ONOS provider connects to that provider |
| `Helpers.SingleOnosInfo` | xos/synchronizer/steps/helpers.py:37-43 | with a host and port free of 'h', the URL is "http://host:port" |
| `Helpers.FabricOnosInfoExample` | xos/synchronizer/steps/test_sync_fabric_crossconnect_service_instance.py:119-126 | the provider "onos-fabric" at port 8181 gives "http://onos-fabric:8181", user "onos", password "rocks" |
| `Helpers.MatchTokensSpec` | xos/synchronizer/steps/helpers.py:45-57 | the answer is that of the first token that decides; it is `None` exactly when none decides |
| `Helpers.MatchesIffHitFirst` | xos/synchronizer/steps/helpers.py:50-55 | `True` exactly when a range holding the value comes before any "any" token or bad range |
| `Helpers.FirstDecider` | xos/synchronizer/steps/helpers.py:48-57 | when the scan stops, some token is the first to decide it |
| `Helpers.AnyEndsScan` | xos/synchronizer/steps/helpers.py:56-57 | an "any" token after undecided tokens ends the scan with `False`, whatever follows |
| `Helpers.DashFreeTokenNeverMatches` | xos/synchronizer/steps/helpers.py:50-57 | a token without a dash never answers `True` |
| `Helpers.DashFreePatternNeverMatches` | xos/synchronizer/steps/helpers.py:48-57 | a pattern without a dash never answers `True` |
| `Helpers.TokensAvoid` | xos/synchronizer/steps/helpers.py:48-49 | a character absent from the pattern is absent from every token |
| `Helpers.ValidatedNeverRaises` | xos/synchronizer/steps/helpers.py:45-57 | a pattern that `validate_range` accepts never makes `range_matches` raise, for any value |
| `Helpers.RangeHit` | xos/synchronizer/steps/helpers.py:50-55 | `lo-hi` of two numbers holding the value answers `True` |
| `Helpers.RangeMiss` | xos/synchronizer/steps/helpers.py:50-57 | `lo-hi` of two numbers not holding the value answers `None` |
| `Helpers.RangeToken` | xos/synchronizer/steps/helpers.py:48-53 | `lo-hi` of two numbers is one range token with halves `lo` and `hi` |
| `Helpers.NumberNeverMatches` | xos/synchronizer/steps/helpers.py:50-57 | a bare number answers `None`, even when it is the value itself |
| `Helpers.RangeMatchesInRange` | xos/synchronizer/steps/helpers.py:45-57 | 123 is in "122-124", as the test at lines 134-135 of the sync step's tests expects |
| `Helpers.RangeMatchesOutOfRange` | xos/synchronizer/steps/helpers.py:45-57 | 123 against "110-113" gives `None`, which is falsy as the test at lines 137-138 expects |
| `Helpers.RangeMatchesSingle` | xos/synchronizer/steps/helpers.py:45-57 | 123 against "123" gives `None` in the code as written, where the test at lines 128-129 expects `True` |
| `Helpers.RangeMatchesAny` | xos/synchronizer/steps/helpers.py:56-57 | "ANY" and "any" answer `False` |
| `Helpers.AnyAnswers` | xos/synchronizer/steps/helpers.py:56-57 | "any" alone, in any mix of cases, answers `False` for every value |
| `CrossconnectPolicy.DeletionRule` | xos/synchronizer/model_policies/model_policy_fabriccrossconnectserviceinstance.py:35-40 | when links were deleted and none is left, the row is deleted if it is still stored, nothing else changes, and the policy returns |
| `CrossconnectPolicy.NoLinksNoChange` | xos/synchronizer/model_policies/model_policy_fabriccrossconnectserviceinstance.py:35-45 | without provided links and with no deletion due, nothing happens |
| `CrossconnectPolicy.CheckOrder` | xos/synchronizer/model_policies/model_policy_fabriccrossconnectserviceinstance.py:53-60 | a missing s-tag, an unset switch and a missing port are refused in that order, before any field changes |
| `CrossconnectPolicy.RefusalWritesNothing` | xos/synchronizer/model_policies/model_policy_fabriccrossconnectserviceinstance.py:53-82 | a raise leaves the writes and the stored flag as they were |
| `CrossconnectPolicy.SetFieldsKept` | xos/synchronizer/model_policies/model_policy_fabriccrossconnectserviceinstance.py:65-79 | a field already set keeps its value, whatever the outcome |
| `CrossconnectPolicy.ChangingSTagRefused` | xos/synchronizer/model_policies/model_policy_fabriccrossconnectserviceinstance.py:65-67 | a set s-tag that differs is refused with nothing changed |
| `CrossconnectPolicy.ChangingDpidRefused` | xos/synchronizer/model_policies/model_policy_fabriccrossconnectserviceinstance.py:65-72 | a set switch that differs is refused after the s-tag was adopted in memory |
| `CrossconnectPolicy.ChangingSourcePortRefused` | xos/synchronizer/model_policies/model_policy_fabriccrossconnectserviceinstance.py:65-77 | a set port that differs is refused after the s-tag and switch were adopted in memory |
| `CrossconnectPolicy.SuccessAdoptsAll` | xos/synchronizer/model_policies/model_policy_fabriccrossconnectserviceinstance.py:62-79 | after a successful update, the three fields hold the westbound values |
| `CrossconnectPolicy.SavesChangedFields` | xos/synchronizer/model_policies/model_policy_fabriccrossconnectserviceinstance.py:46-82 | a successful update saves once with exactly the fields whose value changed, in the order s_tag, switch_datapath_id, source_port, and saves nothing when none changed |
| `CrossconnectPolicy.UpdateIdempotent` | xos/synchronizer/model_policies/model_policy_fabriccrossconnectserviceinstance.py:32-82 | a second run with the same westbound values changes and writes nothing |
| `CrossconnectPolicy.CrossconnectInstance.HandleUpdate` | xos/synchronizer/model_policies/model_policy_fabriccrossconnectserviceinstance.py:32-82 | the in-place update reaches the state and the outcome that `HandleUpdateSpec` gives for the old state |
| `CrossconnectPolicy.CrossconnectInstance.HandleCreate` | xos/synchronizer/model_policies/model_policy_fabriccrossconnectserviceinstance.py:29-30 | `handle_create` is `handle_update` |
| `CrossconnectService.GetWestFields` | xos/synchronizer/models/convenience/fabric_crossconnect_service.py:86-109 | the triple is returned exactly when the s-tag is set, the switch is truthy and the port is set, carrying those values; otherwise the first failing check, in that order, names the error: the s-tag, then the switch, then the port |
| `CrossconnectService.CandidatesSpec` | xos/synchronizer/models/convenience/fabric_crossconnect_service.py:39-45 | there are no candidates exactly when no instance of the service carries the triple; otherwise the first candidate is the first such instance |
| `CrossconnectService.CandidatesQualify` | xos/synchronizer/models/convenience/fabric_crossconnect_service.py:39-42 | every candidate belongs to the service and carries the triple |
| `CrossconnectService.PruneSpec` | xos/synchronizer/models/convenience/fabric_crossconnect_service.py:76-83 | after pruning, no owned link lacks the triple; links of other subscribers or services are untouched; the matched providers are the same |
| `CrossconnectService.PruneIdempotent` | xos/synchronizer/models/convenience/fabric_crossconnect_service.py:76-83 | a second `validate_links` deletes nothing |
| `CrossconnectService.MatchedProvidersQualify` | xos/synchronizer/models/convenience/fabric_crossconnect_service.py:77-81 | every matched provider belongs to the service and carries the triple |
| `CrossconnectService.Store.AcquireServiceInstance` | xos/synchronizer/models/convenience/fabric_crossconnect_service.py:29-60 | a refusal of the west fields changes nothing; otherwise one link to the result is appended, and the result is the first candidate or, when there is none, a new instance with the triple, appended under the next id |
| `CrossconnectService.Store.ValidateLinks` | xos/synchronizer/models/convenience/fabric_crossconnect_service.py:62-84 | `None` exactly when the subscriber has no link, and then nothing changes; otherwise the stale links are deleted and the matched providers returned, in link order |
| `SyncBngPortMapping.ScanCrossconnects` | xos/synchronizer/steps/sync_bng_port_mapping.py:56-67 | the scan loop reaches exactly the result of the scan specification |
| `SyncBngPortMapping.ScanFromFilters` | xos/synchronizer/steps/sync_bng_port_mapping.py:56-67 | the scan raises exactly when some instance makes `range_matches` raise; otherwise it gives the instances answering `True` when there are any, and else all the others |
| `SyncBngPortMapping.ScanFilters` | xos/synchronizer/steps/sync_bng_port_mapping.py:56-67 | the same, for the scan from its start |
| `SyncBngPortMapping.FindCrossconnect` | xos/synchronizer/steps/sync_bng_port_mapping.py:49-67 | reaches exactly the lookup specification |
| `SyncBngPortMapping.WithSTagSpec` | xos/synchronizer/steps/sync_bng_port_mapping.py:51 | the query holds exactly the instances with that s-tag |
| `SyncBngPortMapping.FindNumeric` | xos/synchronizer/steps/sync_bng_port_mapping.py:50-54 | for a number the lookup never raises; it is `None` exactly when no instance has that s-tag, and otherwise a non-empty list of exactly those instances |
| `SyncBngPortMapping.SelectedSpec` | xos/synchronizer/steps/sync_bng_port_mapping.py:58-59 | the range list holds exactly the instances answering `True` |
| `SyncBngPortMapping.RejectedAll` | xos/synchronizer/steps/sync_bng_port_mapping.py:60-61 | with no raise and no instance in range, the "any" list is every instance |
| `SyncBngPortMapping.FindRange` | xos/synchronizer/steps/sync_bng_port_mapping.py:55-67 | for a non-numeric specification the lookup is never `None`; it raises exactly when some instance raises; otherwise it is the non-empty list of instances in range, or every instance when none is in range |
| `SyncBngPortMapping.RemoveCrossconnect` | xos/synchronizer/steps/sync_bng_port_mapping.py:36-47 | the DELETE loop reaches exactly the removal specification |
| `SyncBngPortMapping.RemoveAllSucceeds` | xos/synchronizer/steps/sync_bng_port_mapping.py:37-47 | when every removal goes through, each instance gets its DELETE and then its save, in order |
| `SyncBngPortMapping.RemoveAllFirstFailure` | xos/synchronizer/steps/sync_bng_port_mapping.py:37-47 | the first failing removal ends the run with its own failure; the instances before it were removed and saved, it is not saved, and those after it are untouched |
| `SyncBngPortMapping.RemoveAllFailures` | xos/synchronizer/steps/sync_bng_port_mapping.py:37-46 | the removal never raises the GET failure |
| `SyncBngPortMapping.RemoveRequestBody` | xos/synchronizer/steps/sync_bng_port_mapping.py:40-44 | a DELETE to the ONOS URL plus "/onos/segmentrouting/xconnect", with body keys "deviceId" then "vlanId" holding the switch and the s-tag |
| `SyncBngPortMapping.DriftedSpec` | xos/synchronizer/steps/sync_bng_port_mapping.py:90-94 | an instance is listed once per xconnect on its switch whose endpoints lack the BNG port, and not at all when there is none |
| `SyncBngPortMapping.CollectDrifted` | xos/synchronizer/steps/sync_bng_port_mapping.py:90-94 | the inner loop reaches exactly that list |
| `SyncBngPortMapping.ProbeInstance` | xos/synchronizer/steps/sync_bng_port_mapping.py:75-94 | one instance's step: the ONOS lookup, a GET, a raise on any status but 200, then the drifted list |
| `SyncBngPortMapping.ProbeCrossconnects` | xos/synchronizer/steps/sync_bng_port_mapping.py:74-94 | the outer loop reaches exactly the GET-loop specification |
| `SyncBngPortMapping.ProbeOnlyGets` | xos/synchronizer/steps/sync_bng_port_mapping.py:74-94 | the GET loop sends only GETs |
| `SyncBngPortMapping.ProbeSucceedsAll` | xos/synchronizer/steps/sync_bng_port_mapping.py:74-94 | when every GET answers 200, one GET per instance is sent in order, and the list to remove is each instance's drifted list, concatenated |
| `SyncBngPortMapping.ProbeFromFirstFailure` | xos/synchronizer/steps/sync_bng_port_mapping.py:74-83 | the first failing GET ends the loop with its own failure, after the GETs of the instances before it |
| `SyncBngPortMapping.CheckSwitchPortChange` | xos/synchronizer/steps/sync_bng_port_mapping.py:69-99 | reaches exactly the specification of `check_switch_port_change` |
| `SyncBngPortMapping.SwitchPortCheckResult` | xos/synchronizer/steps/sync_bng_port_mapping.py:69-99 | `False` exactly when the lookup found nothing and did not raise; `True` only when it found instances |
| `SyncBngPortMapping.GetFailureBeforeRemoval` | xos/synchronizer/steps/sync_bng_port_mapping.py:80-95 | a failing GET raises before any DELETE is sent |
| `SyncBngPortMapping.SyncRecord` | xos/synchronizer/steps/sync_bng_port_mapping.py:101-117 | reaches exactly the specification of `sync_record` |
| `SyncBngPortMapping.DeleteRecord` | xos/synchronizer/steps/sync_bng_port_mapping.py:119-125 | reaches exactly the specification of `delete_record` |
| `SyncBngPortMapping.SyncChangedIsDeleteOfOld` | xos/synchronizer/steps/sync_bng_port_mapping.py:104-111 | a truthy old s-tag that differs from the current one is handled as the deletion of a mapping with the old s-tag |
| `SyncBngPortMapping.SyncUnchangedIsCheck` | xos/synchronizer/steps/sync_bng_port_mapping.py:104-116 | otherwise the switch-port check runs on the current s-tag, with the same effects, raising exactly when the check raises and with the same failure |
| `SyncBngPortMapping.DeleteRecordRemovesFound` | xos/synchronizer/steps/sync_bng_port_mapping.py:119-125 | a lookup that raises makes the deletion raise before any request; a lookup that finds nothing sends and saves nothing; when every removal of the instances found goes through, the run is their DELETEs and saves in order, and it succeeds |
| `SyncBngPortMapping.DeleteRecordFirstFailure` | xos/synchronizer/steps/sync_bng_port_mapping.py:119-125 | the first instance found whose removal fails ends the deletion with its own failure, after the DELETEs and saves of the instances found before it |
| `SyncBngPortMapping.AllRemovalEffectsMembers` | xos/synchronizer/steps/sync_bng_port_mapping.py:37-46 | when all removals go through, the effects hold each instance's DELETE and save, and nothing that is not one of them |
| `SyncBngPortMapping.DeleteNumericRemovesCarriers` | xos/synchronizer/steps/sync_bng_port_mapping.py:49-54 | deleting a mapping with a numeric s-tag, when those removals go through, succeeds, sends a DELETE for and saves every stored instance carrying that s-tag, and touches no other instance |
| `SyncCrossconnectInstance.BngPort` | xos/synchronizer/steps/sync_fabric_crossconnect_service_instance.py:58-60 | the BNG port is 2 for every instance |
| `SyncCrossconnectInstance.SyncRecord` | xos/synchronizer/steps/sync_fabric_crossconnect_service_instance.py:62-87 | at most one request; none exactly when the owner has no ONOS provider; otherwise the POST of the westbound values and port 2; `Ok` exactly when that POST answers 200; a missing ONOS raises `NoOnosService`, and a sent POST that fails raises with its own status |
| `SyncCrossconnectInstance.DeleteRecord` | xos/synchronizer/steps/sync_fabric_crossconnect_service_instance.py:89-114 | an instance never enacted gets no request and succeeds; otherwise at most one DELETE; `Ok` exactly when it answers 204; for an enacted instance a missing ONOS raises `NoOnosService`, and a sent DELETE that fails raises with its own status |
| `SyncCrossconnectInstance.CreateRequestBody` | xos/synchronizer/steps/sync_fabric_crossconnect_service_instance.py:74-82 | a POST to the ONOS URL plus "/onos/segmentsrouting/xconnect", with keys "deviceId", "vlanId", "ports" and the ports westbound first, BNG second |
| `SyncCrossconnectInstance.DeleteRequestBody` | xos/synchronizer/steps/sync_fabric_crossconnect_service_instance.py:104-109 | a DELETE to the ONOS URL plus "/onos/segmentrouting/xconnect", with keys "deviceId" then "vlanID" |
| `SyncCrossconnectInstance.RequestsDisagree` | xos/synchronizer/steps/sync_fabric_crossconnect_service_instance.py:78-107 | the POST and the DELETE go to different resources, and this DELETE names the s-tag differently from the BNGPortMapping step's DELETE |

## Left out

- HTTP, `requests` and logging: a request is an `Effect` and the controller's answers are the `Controller` parameter. `r.text`, the log lines, connection errors and a body that is not JSON are not modelled.
- The ORM: stored rows are a `seq<Instance>` given to each operation, and `save()` is a `Saved` effect or a write in the policy's snapshot. Query sets, `leaf_model` and the XOS synchroniser framework are not modelled.
- `ServiceInstance.objects.get(id=o.id)` and `get_westbound_service_instance_properties` are replaced by the westbound values they yield. These are typed `Option<int>` / `Option<string>`, so the failure of `int()` on a non-numeric westbound value is not modelled.
- The race noted in `acquire_service_instance`: the provider instance could be deleted before the link is saved. Concurrency is not modelled.
- `validate_links` deletes stale links one by one. The model rebuilds the link sequence without them. A `Link` holds a copy of its provider instance, not a reference, so aliasing between links is not modelled.
- `handle_delete` of the policy only logs, so it is not modelled.
- Python's non-ASCII whitespace and digits: `strip`, `isnumeric` and `int()` are modelled on the ASCII characters only. The whitespace includes the separators 0x1C to 0x1F, as it does for a unicode string; non-ASCII spaces such as U+00A0 are not stripped. `lower()` lowers ASCII letters only.
- The controller's own state: `Controller` answers each request with a status and an xconnect list that depend on the request alone. When `check_switch_port_change` lists an instance once for each drifting xconnect, `remove_crossconnect` sends the identical DELETE for it more than once, and the model cannot express that the first answers 204 and the repeat fails.
- The text of the exceptions: a refusal is a constructor of `PolicyError`, `WestError` or `Failure` carrying the instance id or the status, not the message string the source formats.
- `make_handle`, `extract_handle`, `find_bng`, a `range_matches` on the sync step, and the policed and null-field checks in the sync step's `sync_record` appear in the unit tests of xos/synchronizer/steps/test_sync_fabric_crossconnect_service_instance.py. None of them exists in the sync step, so they are not modelled.
- The `range_matches` tests at lines 128-142 of that file expect `True` for `range_matches(123, "123")` and for the patterns "ANY" and "any". The code in helpers.py answers `None` and `False` for these. The model follows the code, as `Helpers.RangeMatchesSingle` and `Helpers.RangeMatchesAny` show.
- The migrations are not part of this model.
- The concrete test patterns "123, 456", "123-456", "123-456, 789 - 1000", "badstring" and "123-" are covered by the all-input lemmas `BngModels.NumberListAccepted`, `BngModels.TightRangeAccepted`, `BngModels.RangeListAccepted`, `BngModels.WordRejected` and `BngModels.HalfRangeRejected`, not by one lemma per literal.
- `SyncBngPortMapping.FindCrossconnect` and `SyncBngPortMapping.CheckSwitchPortChange` take the matcher and the ONOS lookup as function parameters in their inner loops (`ScanCrossconnects`, `ProbeCrossconnects`), applied to `Helpers.RangeMatches` and `Helpers.FabricOnosInfo`.
