/**
 * The TR-069 (CWMP) client and the in-memory ACS registry (app/models/tr069_manager.py).
 *
 * The SOAP transport is a function `send` from the request to the reply: either the
 * POST failed (a requests exception) or the reply parsed, in which case it is kept as
 * its elements in document order. Building the XML envelope and reading parameter
 * values out of a GetParameterValues reply are not modelled: the latter is the oracle
 * `fetch` from the requested names to the parsed dictionary (None on failure).
 */
module Tr069Manager {
  import opened Wrappers
  import opened PyText

  /** The CWMP namespace every request and reply element lives in. */
  const CwmpNamespace := "urn:dslforum-org:cwmp-1-0"

  /** The qualified tag `find('.//{cwmp}Status')` looks for. */
  const StatusTag := "{" + CwmpNamespace + "}Status"

  /** One entry of a SetParameterValues dictionary: `{'value': ..., 'type': ...}`. */
  datatype ParamValue = ParamValue(value: string, kind: string)

  type ParamMap = map<string, ParamValue>

  /** An element of a reply document; `text` is None for an element without text. */
  datatype Element = Element(tag: string, text: Option<string>)

  datatype Reply = RequestFailed | Response(doc: seq<Element>)

  /** The body of each CWMP request the manager sends. */
  datatype Request =
    | SetValues(params: ParamMap)
    | RebootRequest
    | FactoryResetRequest
    | DownloadRequest(fields: seq<(DownloadTag, string)>)

  /** A manager's connection settings. */
  datatype Manager = Manager(acsUrl: string, username: Option<string>, password: Option<string>)

  /** The HTTP basic credentials of the manager's session: set only when both are truthy. */
  function SessionAuth(m: Manager): (a: Option<(string, string)>)
    ensures a.Some? <==> Truthy(m.username) && Truthy(m.password)
    ensures a.Some? ==> a.value == (m.username.value, m.password.value)
  {
    if Truthy(m.username) && Truthy(m.password) then Some((m.username.value, m.password.value)) else None
  }

  // ---------------------------------------------------------------------------
  // The Status decision
  // ---------------------------------------------------------------------------

  /** Position i holds the first Status element of the document. */
  predicate FirstStatusAt(doc: seq<Element>, i: int) {
    0 <= i < |doc| && doc[i].tag == StatusTag && forall j :: 0 <= j < i ==> doc[j].tag != StatusTag
  }

  /** `find('.//{cwmp}Status')`: the first Status element in document order. */
  function FindStatus(doc: seq<Element>): (r: Option<nat>)
    ensures r.Some? ==> FirstStatusAt(doc, r.value)
    ensures r.None? ==> forall j :: 0 <= j < |doc| ==> doc[j].tag != StatusTag
    decreases |doc|
  {
    if doc == [] then None
    else if doc[0].tag == StatusTag then Some(0)
    else match FindStatus(doc[1..])
      case None => None
      case Some(k) => Some(k + 1)
  }

  /**
   * `status is not None and status.text == '0'` on a reply that arrived: the decision
   * SetParameterValues and Download take.
   */
  function Accepted(reply: Reply): (ok: bool)
    ensures ok <==> reply.Response? && exists i :: FirstStatusAt(reply.doc, i) && reply.doc[i].text == Some("0")
  {
    match reply
    case RequestFailed => false
    case Response(doc) =>
      match FindStatus(doc)
      case None => false
      case Some(k) => doc[k].text == Some("0")
  }

  /** A document without any Status element is never accepted, whatever else it holds. */
  lemma NoStatusRejected(doc: seq<Element>)
    requires forall j :: 0 <= j < |doc| ==> doc[j].tag != StatusTag
    ensures !Accepted(Response(doc))
  {
  }

  /** Only the first Status element counts: a later '0' does not rescue a reply. */
  lemma {:induction false} FirstStatusDecides(doc: seq<Element>, later: seq<Element>)
    requires exists i :: FirstStatusAt(doc, i)
    ensures Accepted(Response(doc + later)) == Accepted(Response(doc))
  {
    var i :| FirstStatusAt(doc, i);
    assert FirstStatusAt(doc + later, i);
    assert (doc + later)[i] == doc[i];
  }

  // ---------------------------------------------------------------------------
  // TR069Manager operations
  // ---------------------------------------------------------------------------

  /** True iff the reply arrived and its first Status element reads "0"; False on a failed request. */
  function SetParameterValues(params: ParamMap, send: Request -> Reply): (ok: bool)
    ensures send(SetValues(params)).RequestFailed? ==> !ok
    ensures ok <==> Accepted(send(SetValues(params)))
  {
    Accepted(send(SetValues(params)))
  }

  /** True iff the Reboot request got any reply at all. */
  function RebootDevice(send: Request -> Reply): (ok: bool)
    ensures ok <==> send(RebootRequest).Response?
  {
    match send(RebootRequest)
    case RequestFailed => false
    case Response(_) => true
  }

  /** True iff the FactoryReset request got any reply at all. */
  function FactoryReset(send: Request -> Reply): (ok: bool)
    ensures ok <==> send(FactoryResetRequest).Response?
  {
    match send(FactoryResetRequest)
    case RequestFailed => false
    case Response(_) => true
  }

  /** The child elements of a Download request, in the order the request writes them. */
  datatype DownloadTag = CommandKey | FileType | Url | Username | Password | FileSize | TargetFileName {
    /** The element's name in the request. */
    function Name(): string {
      match this
      case CommandKey => "CommandKey"
      case FileType => "FileType"
      case Url => "URL"
      case Username => "Username"
      case Password => "Password"
      case FileSize => "FileSize"
      case TargetFileName => "TargetFileName"
    }

    function Rank(): nat {
      match this
      case CommandKey => 0
      case FileType => 1
      case Url => 2
      case Username => 3
      case Password => 4
      case FileSize => 5
      case TargetFileName => 6
    }
  }

  predicate HasField(fields: seq<(DownloadTag, string)>, tag: DownloadTag) {
    exists i :: 0 <= i < |fields| && fields[i].0 == tag
  }

  /** The element for an optional argument: written only when the value is truthy. */
  function OptionalField(tag: DownloadTag, v: Option<string>): (r: seq<(DownloadTag, string)>)
    ensures |r| <= 1
    ensures forall i :: 0 <= i < |r| ==> Truthy(v) && r[i] == (tag, v.value)
    ensures Truthy(v) ==> r == [(tag, v.value)]
  {
    if Truthy(v) then [(tag, v.value)] else []
  }

  /**
   * The children of the Download element. CommandKey, FileType, URL and FileSize are
   * always written; Username, Password and TargetFileName only when truthy.
   */
  function DownloadFields(
    commandKey: string, fileType: int, url: string, username: Option<string>,
    password: Option<string>, fileSize: int, targetFilename: Option<string>): (f: seq<(DownloadTag, string)>)
    ensures |f| >= 4
    ensures f[0] == (CommandKey, commandKey) && f[1] == (FileType, IntToString(fileType)) && f[2] == (Url, url)
    ensures (FileSize, IntToString(fileSize)) in f
    ensures Truthy(username) ==> (Username, username.value) in f
    ensures Truthy(password) ==> (Password, password.value) in f
    ensures Truthy(targetFilename) ==> (TargetFileName, targetFilename.value) in f
  {
    var user := OptionalField(Username, username);
    var pass := OptionalField(Password, password);
    var f := [(CommandKey, commandKey), (FileType, IntToString(fileType)), (Url, url)]
      + user + pass + [(FileSize, IntToString(fileSize))] + OptionalField(TargetFileName, targetFilename);
    assert Truthy(username) ==> f[3] == (Username, username.value);
    assert Truthy(password) ==> f[3 + |user|] == (Password, password.value);
    assert f[3 + |user| + |pass|] == (FileSize, IntToString(fileSize));
    assert Truthy(targetFilename) ==> f[|f| - 1] == (TargetFileName, targetFilename.value);
    f
  }

  /** An optional element is present exactly when its value is truthy. */
  lemma DownloadOptionalFields(
    commandKey: string, fileType: int, url: string, username: Option<string>,
    password: Option<string>, fileSize: int, targetFilename: Option<string>)
    ensures var f := DownloadFields(commandKey, fileType, url, username, password, fileSize, targetFilename);
      && (HasField(f, Username) <==> Truthy(username))
      && (HasField(f, Password) <==> Truthy(password))
      && (HasField(f, TargetFileName) <==> Truthy(targetFilename))
  {
    var f := DownloadFields(commandKey, fileType, url, username, password, fileSize, targetFilename);
    var user := OptionalField(Username, username);
    var pass := OptionalField(Password, password);
    var target := OptionalField(TargetFileName, targetFilename);
    assert f == [(CommandKey, commandKey), (FileType, IntToString(fileType)), (Url, url)]
      + user + pass + [(FileSize, IntToString(fileSize))] + target;
    forall i | 0 <= i < |f|
      ensures f[i].0 == Username ==> Truthy(username)
      ensures f[i].0 == Password ==> Truthy(password)
      ensures f[i].0 == TargetFileName ==> Truthy(targetFilename)
    {
      if 3 <= i < 3 + |user| {
        assert f[i] == user[i - 3];
      } else if 3 + |user| <= i < 3 + |user| + |pass| {
        assert f[i] == pass[i - 3 - |user|];
      } else if 4 + |user| + |pass| <= i {
        assert f[i] == target[i - 4 - |user| - |pass|];
      }
    }
  }

  /** Each element is written at most once, in the fixed order of DownloadTag. */
  lemma DownloadFieldsOrdered(
    commandKey: string, fileType: int, url: string, username: Option<string>,
    password: Option<string>, fileSize: int, targetFilename: Option<string>)
    ensures var f := DownloadFields(commandKey, fileType, url, username, password, fileSize, targetFilename);
      forall i, j :: 0 <= i < j < |f| ==> f[i].0.Rank() < f[j].0.Rank()
  {
    var f := DownloadFields(commandKey, fileType, url, username, password, fileSize, targetFilename);
    var user := OptionalField(Username, username);
    var pass := OptionalField(Password, password);
    var target := OptionalField(TargetFileName, targetFilename);
    assert f == [(CommandKey, commandKey), (FileType, IntToString(fileType)), (Url, url)]
      + user + pass + [(FileSize, IntToString(fileSize))] + target;
    // Each position's rank is bounded by where the position lies in the sequence.
    forall i | 0 <= i < |f|
      ensures i < 3 ==> f[i].0.Rank() == i
      ensures 3 <= i < 3 + |user| ==> f[i].0.Rank() == 3
      ensures 3 + |user| <= i < 3 + |user| + |pass| ==> f[i].0.Rank() == 4
      ensures i == 3 + |user| + |pass| ==> f[i].0.Rank() == 5
      ensures 4 + |user| + |pass| <= i ==> f[i].0.Rank() == 6 && i == |f| - 1
    {
      if 3 <= i < 3 + |user| {
        assert f[i] == user[i - 3];
      } else if 3 + |user| <= i < 3 + |user| + |pass| {
        assert f[i] == pass[i - 3 - |user|];
      } else if 4 + |user| + |pass| <= i {
        assert f[i] == target[i - 4 - |user| - |pass|];
      }
    }
  }

  /**
   * Starts a download. The result is the request's own CommandKey when the reply is
   * accepted, and None otherwise (no reply, no Status, or a Status other than "0").
   */
  function Download(
    commandKey: string, fileType: int, url: string, username: Option<string>,
    password: Option<string>, fileSize: int, targetFilename: Option<string>,
    send: Request -> Reply): (r: Option<string>)
    ensures r.Some? <==> Accepted(send(DownloadRequest(
      DownloadFields(commandKey, fileType, url, username, password, fileSize, targetFilename))))
    ensures r.Some? ==> r.value == commandKey
  {
    var request := DownloadRequest(DownloadFields(commandKey, fileType, url, username, password, fileSize, targetFilename));
    if Accepted(send(request)) then Some(request.fields[0].1) else None
  }

  // ---------------------------------------------------------------------------
  // Diagnostics
  // ---------------------------------------------------------------------------

  /** The parameters that request a ping test. */
  const PingParams: ParamMap := map[
    "InternetGatewayDevice.IPPingDiagnostics.DiagnosticsState" := ParamValue("Requested", "xsd:string"),
    "InternetGatewayDevice.IPPingDiagnostics.Host" := ParamValue("8.8.8.8", "xsd:string"),
    "InternetGatewayDevice.IPPingDiagnostics.NumberOfRepetitions" := ParamValue("4", "xsd:unsignedInt"),
    "InternetGatewayDevice.IPPingDiagnostics.Timeout" := ParamValue("1000", "xsd:unsignedInt"),
    "InternetGatewayDevice.IPPingDiagnostics.DataBlockSize" := ParamValue("64", "xsd:unsignedInt")]

  /** The parameters read back after a ping test. */
  const PingResultNames: seq<string> := [
    "InternetGatewayDevice.IPPingDiagnostics.DiagnosticsState", "InternetGatewayDevice.IPPingDiagnostics.SuccessCount", "InternetGatewayDevice.IPPingDiagnostics.FailureCount",
    "InternetGatewayDevice.IPPingDiagnostics.AverageResponseTime", "InternetGatewayDevice.IPPingDiagnostics.MinimumResponseTime",
    "InternetGatewayDevice.IPPingDiagnostics.MaximumResponseTime"]

  /** The parameters that request a traceroute. */
  const TraceParams: ParamMap := map[
    "InternetGatewayDevice.TraceRouteDiagnostics.DiagnosticsState" := ParamValue("Requested", "xsd:string"),
    "InternetGatewayDevice.TraceRouteDiagnostics.Host" := ParamValue("8.8.8.8", "xsd:string"),
    "InternetGatewayDevice.TraceRouteDiagnostics.MaxHopCount" := ParamValue("30", "xsd:unsignedInt"),
    "InternetGatewayDevice.TraceRouteDiagnostics.Timeout" := ParamValue("5000", "xsd:unsignedInt")]

  /** The parameters read back after a traceroute: the state and the first two hops. */
  const TraceResultNames: seq<string> := [
    "InternetGatewayDevice.TraceRouteDiagnostics.DiagnosticsState",
    "InternetGatewayDevice.TraceRouteDiagnostics.RouteHops.1.HopHost", "InternetGatewayDevice.TraceRouteDiagnostics.RouteHops.1.HopHostAddress",
    "InternetGatewayDevice.TraceRouteDiagnostics.RouteHops.1.HopRTTimes",
    "InternetGatewayDevice.TraceRouteDiagnostics.RouteHops.2.HopHost", "InternetGatewayDevice.TraceRouteDiagnostics.RouteHops.2.HopHostAddress",
    "InternetGatewayDevice.TraceRouteDiagnostics.RouteHops.2.HopRTTimes"]

  /**
   * Runs a ping or a traceroute: the set step first, and the get step only after it
   * was accepted. Any other diagnostic type gives None without any request.
   */
  function RunDiagnostics(kind: string, send: Request -> Reply, fetch: seq<string> -> Option<ParamMap>): (r: Option<ParamMap>)
    ensures kind != "ping" && kind != "traceroute" ==> r.None?
    ensures kind == "ping" ==> r == (if Accepted(send(SetValues(PingParams))) then fetch(PingResultNames) else None)
    ensures kind == "traceroute" ==> r == (if Accepted(send(SetValues(TraceParams))) then fetch(TraceResultNames) else None)
  {
    if kind == "ping" then
      if !SetParameterValues(PingParams, send) then None else fetch(PingResultNames)
    else if kind == "traceroute" then
      if !SetParameterValues(TraceParams, send) then None else fetch(TraceResultNames)
    else None
  }

  /** When the set step is refused the get step's answer cannot matter: it was never asked. */
  lemma DiagnosticsSkipGet(kind: string, send: Request -> Reply, fetch1: seq<string> -> Option<ParamMap>, fetch2: seq<string> -> Option<ParamMap>)
    requires kind == "ping" ==> !Accepted(send(SetValues(PingParams)))
    requires kind == "traceroute" ==> !Accepted(send(SetValues(TraceParams)))
    ensures RunDiagnostics(kind, send, fetch1) == RunDiagnostics(kind, send, fetch2) == None
  {
  }

  /** Both tests ask the device to start ("Requested") towards 8.8.8.8 and read the state back first. */
  lemma DiagnosticsRequests()
    ensures PingParams["InternetGatewayDevice.IPPingDiagnostics.DiagnosticsState"] == TraceParams["InternetGatewayDevice.TraceRouteDiagnostics.DiagnosticsState"] == ParamValue("Requested", "xsd:string")
    ensures PingParams["InternetGatewayDevice.IPPingDiagnostics.Host"] == TraceParams["InternetGatewayDevice.TraceRouteDiagnostics.Host"] == ParamValue("8.8.8.8", "xsd:string")
    ensures PingResultNames[0] == "InternetGatewayDevice.IPPingDiagnostics.DiagnosticsState" && TraceResultNames[0] == "InternetGatewayDevice.TraceRouteDiagnostics.DiagnosticsState"
  {
  }

  // ---------------------------------------------------------------------------
  // TR069ACSServer
  // ---------------------------------------------------------------------------

  /** A registered CPE; `lastSeen` is an instant supplied by the caller. */
  datatype Device = Device(
    manufacturer: string, model: string, softwareVersion: string, lastSeen: int,
    parameters: map<string, string>)

  /** `dict.update`: every new key added, existing keys overwritten, the rest kept. */
  function Merge(current: map<string, string>, updates: map<string, string>): (r: map<string, string>)
    ensures r.Keys == current.Keys + updates.Keys
    ensures forall k :: k in updates ==> r[k] == updates[k]
    ensures forall k :: k in current && k !in updates ==> r[k] == current[k]
  {
    current + updates
  }

  /** The registry after `register_device`. */
  function Registered(devices: map<string, Device>, id: string, manufacturer: string, model: string,
                      softwareVersion: string, now: int): (r: map<string, Device>)
    ensures r.Keys == devices.Keys + {id}
    ensures r[id] == Device(manufacturer, model, softwareVersion, now, map[])
    ensures forall other :: other in devices && other != id ==> r[other] == devices[other]
  {
    devices[id := Device(manufacturer, model, softwareVersion, now, map[])]
  }

  /** The registry after `update_device_parameters`. */
  function Updated(devices: map<string, Device>, id: string, parameters: map<string, string>, now: int): (r: map<string, Device>)
    ensures id !in devices ==> r == devices
    ensures r.Keys == devices.Keys
    ensures id in devices ==>
      r[id] == devices[id].(parameters := Merge(devices[id].parameters, parameters), lastSeen := now)
    ensures forall other :: other in devices && other != id ==> r[other] == devices[other]
  {
    if id !in devices then devices
    else devices[id := devices[id].(parameters := Merge(devices[id].parameters, parameters), lastSeen := now)]
  }

  /** Registering again forgets the parameters reported since the earlier registration. */
  lemma {:induction false} ReRegisterForgets(devices: map<string, Device>, id: string, m: string, model: string,
                                             sw: string, t1: int, updates: map<string, string>, t2: int, t3: int)
    ensures Registered(Updated(Registered(devices, id, m, model, sw, t1), id, updates, t2), id, m, model, sw, t3)
      == Registered(devices, id, m, model, sw, t3)
  {
    var once := Registered(devices, id, m, model, sw, t3);
    var again := Registered(Updated(Registered(devices, id, m, model, sw, t1), id, updates, t2), id, m, model, sw, t3);
    assert again.Keys == once.Keys;
    forall k | k in once
      ensures again[k] == once[k]
    {
    }
  }

  /** A first update after registration leaves exactly the reported parameters. */
  lemma UpdateAfterRegister(devices: map<string, Device>, id: string, m: string, model: string,
                            sw: string, t1: int, updates: map<string, string>, t2: int)
    ensures Updated(Registered(devices, id, m, model, sw, t1), id, updates, t2)[id].parameters == updates
  {
    var r := Merge(map[], updates);
    assert r.Keys == updates.Keys;
  }

  /** The simplified ACS: its listen address, credentials and the device registry. */
  class AcsServer {
    var listenHost: string
    var listenPort: int
    var username: Option<string>
    var password: Option<string>
    var devices: map<string, Device>

    /** A server with an empty registry. */
    constructor (listenHost: string, listenPort: int, username: Option<string>, password: Option<string>)
      ensures this.listenHost == listenHost && this.listenPort == listenPort
      ensures this.username == username && this.password == password
      ensures devices == map[]
    {
      this.listenHost, this.listenPort := listenHost, listenPort;
      this.username, this.password := username, password;
      devices := map[];
    }

    /** Starting only logs the address: it always succeeds and changes nothing. */
    method Start() returns (ok: bool)
      ensures ok
    {
      ok := true;
    }

    method Stop() returns (ok: bool)
      ensures ok
    {
      ok := true;
    }

    /** Stores a fresh entry with empty parameters, replacing any earlier one, and returns True. */
    method RegisterDevice(id: string, manufacturer: string, model: string, softwareVersion: string, now: int)
      returns (ok: bool)
      modifies this
      ensures ok
      ensures devices == Registered(old(devices), id, manufacturer, model, softwareVersion, now)
      ensures listenHost == old(listenHost) && listenPort == old(listenPort)
      ensures username == old(username) && password == old(password)
    {
      devices := devices[id := Device(manufacturer, model, softwareVersion, now, map[])];
      ok := true;
    }

    /** `devices.get(id)` */
    function GetDevice(id: string): (r: Option<Device>)
      reads this
      ensures r.Some? <==> id in devices
      ensures r.Some? ==> r.value == devices[id]
    {
      if id in devices then Some(devices[id]) else None
    }

    /** Merges the parameters into a known device and refreshes its last_seen; False for an unknown id. */
    method UpdateDeviceParameters(id: string, parameters: map<string, string>, now: int) returns (ok: bool)
      modifies this
      ensures ok <==> id in old(devices)
      ensures devices == Updated(old(devices), id, parameters, now)
      ensures listenHost == old(listenHost) && listenPort == old(listenPort)
      ensures username == old(username) && password == old(password)
    {
      if id !in devices {
        return false;
      }
      var d := devices[id];
      devices := devices[id := d.(parameters := d.parameters + parameters, lastSeen := now)];
      ok := true;
    }
  }
}
