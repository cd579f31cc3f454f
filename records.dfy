/** Entities shared by the policy, the convenience wrapper and the two sync steps,
    and the controller as the sync steps see it: requests out, status codes and
    xconnect lists back. */
module Records {

  datatype Option<+T> = None | Some(value: T)

  /** Python truthiness of an optional string: set and non-empty. */
  predicate Truthy(s: Option<string>) {
    s.Some? && s.value != ""
  }

  /** `str(x)` of an optional string: `None` renders as "None". */
  function PyStr(s: Option<string>): string {
    if s.Some? then s.value else "None"
  }

  /** A service in a crossconnect service's `provider_services`, with the REST
      settings of its leaf model (the port as the text `"%s"` renders). */
  datatype ProviderService = ProviderService(
    name: string,
    restHostname: string,
    restPort: string,
    restUsername: string,
    restPassword: string)

  /** A FabricCrossconnectService. */
  datatype Service = Service(id: int, providerServices: seq<ProviderService>)

  /** A FabricCrossconnectServiceInstance as stored; `None` is a null column. */
  datatype Instance = Instance(
    id: int,
    owner: Service,
    sTag: Option<int>,
    switchDatapathId: Option<string>,
    sourcePort: Option<int>,
    enacted: bool)

  /** The three values `get_westbound_service_instance_properties` yields for
      "s_tag", "switch_datapath_id" and "switch_port". */
  datatype Westbound = Westbound(
    sTag: Option<int>,
    switchDatapathId: Option<string>,
    switchPort: Option<int>)

  /** JSON values, for request bodies. */
  datatype Json =
    | JNull
    | JInt(i: int)
    | JString(s: string)
    | JArray(items: seq<Json>)
    | JObject(members: seq<(string, Json)>)

  function IntOrNull(v: Option<int>): Json {
    if v.Some? then JInt(v.value) else JNull
  }

  function StringOrNull(v: Option<string>): Json {
    if v.Some? then JString(v.value) else JNull
  }

  /** The keys of a JSON object, in order. */
  function Keys(members: seq<(string, Json)>): seq<string> {
    if |members| == 0 then [] else [members[0].0] + Keys(members[1..])
  }

  datatype Verb = GET | POST | DELETE

  /** One HTTP request to the controller, with its basic-auth credentials. */
  datatype Request = Request(verb: Verb, url: string, user: string, password: string, body: Option<Json>)

  /** What the sync steps do that is observable: requests sent, instances saved. */
  datatype Effect = Sent(request: Request) | Saved(instanceId: int)

  /** One entry of the controller's xconnect table. */
  datatype Xconnect = Xconnect(deviceId: string, endpoints: seq<int>)

  /** The controller: the status code it answers each request with, and the
      decoded "xconnects" list of a GET. */
  datatype Controller = Controller(status: Request -> int, xconnects: Request -> seq<Xconnect>)

  /** The exceptions the sync steps raise. */
  datatype Failure =
    | NoOnosService      // no provider service whose name contains "onos"
    | CreateFailed(status: int)
    | RemoveFailed(status: int)
    | GetFailed(status: int)
    | MatchRaised        // range_matches raised on an instance's s_tag

  datatype Outcome<+T> = Ok(value: T) | Raised(failure: Failure)

  /** A run of a sync operation: the effects it had, in order, and how it ended. */
  datatype Run<+T> = Run(effects: seq<Effect>, outcome: Outcome<T>)
}
