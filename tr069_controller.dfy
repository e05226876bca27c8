/**
 * The TR-069 routes (app/controllers/tr069.py): the Wi-Fi and VoIP parameter maps
 * built from a submitted form, the firmware, reboot, factory-reset and diagnostics
 * actions (each logging only when the manager reports success), and the lazily created
 * ACS server and manager held in the application configuration.
 *
 * A submitted form is a map from field name to value; a field that is absent is None
 * under `request.form.get`. Flash messages, redirects and templates are not modelled.
 */
module Tr069Controller {
  import opened Wrappers
  import opened PyText
  import opened Inventory
  import opened Tr069Manager

  type Form = map<string, string>

  /** `request.form.get(key)` */
  function Field(form: Form, key: string): Option<string> {
    if key in form then Some(form[key]) else None
  }

  /** The value of a boolean parameter: "1" when the check box was sent with any non-empty value. */
  function Flag(v: Option<string>): string {
    if Truthy(v) then "1" else "0"
  }

  // ---------------------------------------------------------------------------
  // Wi-Fi
  // ---------------------------------------------------------------------------

  const Wlan1Enable := "InternetGatewayDevice.LANDevice.1.WLANConfiguration.1.Enable"
  const Wlan1Ssid := "InternetGatewayDevice.LANDevice.1.WLANConfiguration.1.SSID"
  const Wlan1Channel := "InternetGatewayDevice.LANDevice.1.WLANConfiguration.1.Channel"
  const Wlan1Beacon := "InternetGatewayDevice.LANDevice.1.WLANConfiguration.1.BeaconType"
  const Wlan1Key := "InternetGatewayDevice.LANDevice.1.WLANConfiguration.1.PreSharedKey.1.PreSharedKey"
  const Wlan2Enable := "InternetGatewayDevice.LANDevice.1.WLANConfiguration.2.Enable"
  const Wlan2Ssid := "InternetGatewayDevice.LANDevice.1.WLANConfiguration.2.SSID"
  const Wlan2Channel := "InternetGatewayDevice.LANDevice.1.WLANConfiguration.2.Channel"
  const Wlan2Beacon := "InternetGatewayDevice.LANDevice.1.WLANConfiguration.2.BeaconType"
  const Wlan2Key := "InternetGatewayDevice.LANDevice.1.WLANConfiguration.2.PreSharedKey.1.PreSharedKey"

  /** Every key the Wi-Fi form can set. */
  const WifiKeys: set<string> := {
    Wlan1Enable, Wlan1Ssid, Wlan1Channel, Wlan1Beacon, Wlan1Key,
    Wlan2Enable, Wlan2Ssid, Wlan2Channel, Wlan2Beacon, Wlan2Key}

  /**
   * What the Wi-Fi route sends for a form. The 2.4 GHz radio is always written, with
   * defaults SSID '', channel '0' and security 'None'; its key only for a non-empty
   * password. The 5 GHz radio is written only when enabled, and its key only when a
   * 5 GHz password is given as well.
   */
  predicate WifiParamsFor(form: Form, params: ParamMap) {
    var on5 := Truthy(Field(form, "wifi_5g_enabled"));
    params.Keys <= WifiKeys
    && Wlan1Enable in params && params[Wlan1Enable] == ParamValue(Flag(Field(form, "wifi_enabled")), "xsd:boolean")
    && Wlan1Ssid in params && params[Wlan1Ssid] == ParamValue(Field(form, "ssid").GetOr(""), "xsd:string")
    && Wlan1Channel in params && params[Wlan1Channel] == ParamValue(Field(form, "channel").GetOr("0"), "xsd:unsignedInt")
    && Wlan1Beacon in params && params[Wlan1Beacon] == ParamValue(Field(form, "security_mode").GetOr("None"), "xsd:string")
    && (Wlan1Key in params <==> Truthy(Field(form, "password")))
    && (Wlan1Key in params ==> params[Wlan1Key] == ParamValue(form["password"], "xsd:string"))
    && (Wlan2Enable in params <==> on5) && (Wlan2Ssid in params <==> on5)
    && (Wlan2Channel in params <==> on5) && (Wlan2Beacon in params <==> on5)
    && (on5 ==> params[Wlan2Enable] == ParamValue("1", "xsd:boolean")
                && params[Wlan2Ssid] == ParamValue(Field(form, "ssid_5g").GetOr(""), "xsd:string")
                && params[Wlan2Channel] == ParamValue(Field(form, "channel_5g").GetOr("0"), "xsd:unsignedInt")
                && params[Wlan2Beacon] == ParamValue(Field(form, "security_mode_5g").GetOr("None"), "xsd:string"))
    && (Wlan2Key in params <==> on5 && Truthy(Field(form, "password_5g")))
    && (Wlan2Key in params ==> params[Wlan2Key] == ParamValue(form["password_5g"], "xsd:string"))
  }

  /** The form fixes the parameter map completely: no other map meets the description. */
  lemma WifiParamsUnique(form: Form, p1: ParamMap, p2: ParamMap)
    requires WifiParamsFor(form, p1) && WifiParamsFor(form, p2)
    ensures p1 == p2
  {
    assert p1.Keys == p2.Keys;
  }

  /** The dictionary `wifi_settings` builds from the form, extended key by key. */
  method WifiSettings(form: Form) returns (params: ParamMap)
    ensures WifiParamsFor(form, params)
  {
    params := map[
      Wlan1Enable := ParamValue(Flag(Field(form, "wifi_enabled")), "xsd:boolean"),
      Wlan1Ssid := ParamValue(Field(form, "ssid").GetOr(""), "xsd:string"),
      Wlan1Channel := ParamValue(Field(form, "channel").GetOr("0"), "xsd:unsignedInt"),
      Wlan1Beacon := ParamValue(Field(form, "security_mode").GetOr("None"), "xsd:string")];
    if Truthy(Field(form, "password")) {
      params := params[Wlan1Key := ParamValue(form["password"], "xsd:string")];
    }
    if Truthy(Field(form, "wifi_5g_enabled")) {
      params := params[Wlan2Enable := ParamValue("1", "xsd:boolean")];
      params := params[Wlan2Ssid := ParamValue(Field(form, "ssid_5g").GetOr(""), "xsd:string")];
      params := params[Wlan2Channel := ParamValue(Field(form, "channel_5g").GetOr("0"), "xsd:unsignedInt")];
      params := params[Wlan2Beacon := ParamValue(Field(form, "security_mode_5g").GetOr("None"), "xsd:string")];
      if Truthy(Field(form, "password_5g")) {
        params := params[Wlan2Key := ParamValue(form["password_5g"], "xsd:string")];
      }
    }
  }

  // ---------------------------------------------------------------------------
  // VoIP
  // ---------------------------------------------------------------------------

  const VoipEnable := "InternetGatewayDevice.Services.VoiceService.1.VoiceProfile.1.Enable"
  const VoipProxy := "InternetGatewayDevice.Services.VoiceService.1.VoiceProfile.1.SIP.ProxyServer"
  const VoipRegistrar := "InternetGatewayDevice.Services.VoiceService.1.VoiceProfile.1.SIP.RegistrarServer"
  const VoipDomain := "InternetGatewayDevice.Services.VoiceService.1.VoiceProfile.1.SIP.UserAgentDomain"
  const VoipLineEnable := "InternetGatewayDevice.Services.VoiceService.1.VoiceProfile.1.Line.1.Enable"
  const VoipUser := "InternetGatewayDevice.Services.VoiceService.1.VoiceProfile.1.Line.1.SIP.AuthUserName"
  const VoipUri := "InternetGatewayDevice.Services.VoiceService.1.VoiceProfile.1.Line.1.SIP.URI"
  const VoipCallerId := "InternetGatewayDevice.Services.VoiceService.1.VoiceProfile.1.Line.1.CallingFeatures.CallerIDName"
  const VoipPassword := "InternetGatewayDevice.Services.VoiceService.1.VoiceProfile.1.Line.1.SIP.AuthPassword"

  /**
   * What the VoIP route sends: the eight profile and line parameters always (text
   * fields default to ''), and the SIP password only when a non-empty one is given.
   */
  predicate VoipParamsFor(form: Form, params: ParamMap) {
    params.Keys <= {VoipEnable, VoipProxy, VoipRegistrar, VoipDomain, VoipLineEnable,
                    VoipUser, VoipUri, VoipCallerId, VoipPassword}
    && VoipEnable in params && params[VoipEnable] == ParamValue(Flag(Field(form, "voip_enabled")), "xsd:boolean")
    && VoipProxy in params && params[VoipProxy] == ParamValue(Field(form, "proxy_server").GetOr(""), "xsd:string")
    && VoipRegistrar in params && params[VoipRegistrar] == ParamValue(Field(form, "registrar_server").GetOr(""), "xsd:string")
    && VoipDomain in params && params[VoipDomain] == ParamValue(Field(form, "domain").GetOr(""), "xsd:string")
    && VoipLineEnable in params && params[VoipLineEnable] == ParamValue(Flag(Field(form, "line_enabled")), "xsd:boolean")
    && VoipUser in params && params[VoipUser] == ParamValue(Field(form, "username").GetOr(""), "xsd:string")
    && VoipUri in params && params[VoipUri] == ParamValue(Field(form, "uri").GetOr(""), "xsd:string")
    && VoipCallerId in params && params[VoipCallerId] == ParamValue(Field(form, "caller_id").GetOr(""), "xsd:string")
    && (VoipPassword in params <==> Truthy(Field(form, "password")))
    && (VoipPassword in params ==> params[VoipPassword] == ParamValue(form["password"], "xsd:string"))
  }

  lemma VoipParamsUnique(form: Form, p1: ParamMap, p2: ParamMap)
    requires VoipParamsFor(form, p1) && VoipParamsFor(form, p2)
    ensures p1 == p2
  {
    assert p1.Keys == p2.Keys;
  }

  /** The dictionary `voip_settings` builds from the form. */
  method VoipSettings(form: Form) returns (params: ParamMap)
    ensures VoipParamsFor(form, params)
  {
    params := map[
      VoipEnable := ParamValue(Flag(Field(form, "voip_enabled")), "xsd:boolean"),
      VoipProxy := ParamValue(Field(form, "proxy_server").GetOr(""), "xsd:string"),
      VoipRegistrar := ParamValue(Field(form, "registrar_server").GetOr(""), "xsd:string"),
      VoipDomain := ParamValue(Field(form, "domain").GetOr(""), "xsd:string"),
      VoipLineEnable := ParamValue(Flag(Field(form, "line_enabled")), "xsd:boolean"),
      VoipUser := ParamValue(Field(form, "username").GetOr(""), "xsd:string"),
      VoipUri := ParamValue(Field(form, "uri").GetOr(""), "xsd:string"),
      VoipCallerId := ParamValue(Field(form, "caller_id").GetOr(""), "xsd:string")];
    if Truthy(Field(form, "password")) {
      params := params[VoipPassword := ParamValue(form["password"], "xsd:string")];
    }
  }

  // ---------------------------------------------------------------------------
  // Application configuration
  // ---------------------------------------------------------------------------

  /** How a route ends. */
  datatype RouteOutcome =
    | NotConfigured   // no manager (or no ACS server) in the configuration: nothing is sent
    | InputMissing    // a required form field is empty: nothing is sent
    | Succeeded
    | Failed
    | Raised          // `int()` raised ValueError: the request ends in a server error

  /** The configuration entries the TR-069 routes read and write; None is an unset entry. */
  class AppConfig {
    var acsHost: Option<string>
    var acsPort: Option<int>
    var acsUsername: Option<string>
    var acsPassword: Option<string>
    var acsServer: Option<AcsServer>
    var manager: Option<Manager>

    /** A configuration holding at most a manager set up elsewhere. */
    constructor (manager: Option<Manager>)
      ensures this.manager == manager
      ensures acsHost.None? && acsPort.None? && acsUsername.None? && acsPassword.None? && acsServer.None?
    {
      this.manager := manager;
      acsHost, acsPort, acsUsername, acsPassword, acsServer := None, None, None, None, None;
    }
  }

  /** The database after a route that adds `entry` only when it succeeded. */
  function LoggedIf(db: Db, success: bool, entry: LogEntry): (r: Db)
    ensures r.olts == db.olts && r.onus == db.onus
    ensures r.logs == if success then db.logs + [entry] else db.logs
  {
    if success then db.(logs := db.logs + [entry]) else db
  }

  // ---------------------------------------------------------------------------
  // Routes that talk to the manager
  // ---------------------------------------------------------------------------

  /** POST /device/<id>/wifi */
  method WifiRoute(config: AppConfig, store: Store, deviceId: string, form: Form, send: Request -> Reply)
    returns (outcome: RouteOutcome, sent: Option<ParamMap>)
    modifies store
    ensures config.manager.None? ==> outcome == NotConfigured && sent.None?
    ensures config.manager.Some? ==>
      sent.Some? && WifiParamsFor(form, sent.value)
      && outcome == (if SetParameterValues(sent.value, send) then Succeeded else Failed)
    ensures store.State() == LoggedIf(old(store.State()), outcome == Succeeded,
      LogEntry("info", "TR-069", "Configurações Wi-Fi atualizadas para o dispositivo " + deviceId))
  {
    if config.manager.None? {
      return NotConfigured, None;
    }
    var params := WifiSettings(form);
    sent := Some(params);
    if SetParameterValues(params, send) {
      store.Log("info", "TR-069", "Configurações Wi-Fi atualizadas para o dispositivo " + deviceId);
      outcome := Succeeded;
    } else {
      outcome := Failed;
    }
  }

  /** POST /device/<id>/voip */
  method VoipRoute(config: AppConfig, store: Store, deviceId: string, form: Form, send: Request -> Reply)
    returns (outcome: RouteOutcome, sent: Option<ParamMap>)
    modifies store
    ensures config.manager.None? ==> outcome == NotConfigured && sent.None?
    ensures config.manager.Some? ==>
      sent.Some? && VoipParamsFor(form, sent.value)
      && outcome == (if SetParameterValues(sent.value, send) then Succeeded else Failed)
    ensures store.State() == LoggedIf(old(store.State()), outcome == Succeeded,
      LogEntry("info", "TR-069", "Configurações VoIP atualizadas para o dispositivo " + deviceId))
  {
    if config.manager.None? {
      return NotConfigured, None;
    }
    var params := VoipSettings(form);
    sent := Some(params);
    if SetParameterValues(params, send) {
      store.Log("info", "TR-069", "Configurações VoIP atualizadas para o dispositivo " + deviceId);
      outcome := Succeeded;
    } else {
      outcome := Failed;
    }
  }

  /** `int(request.form.get('file_size', 0))`; None stands for the ValueError. */
  function FileSizeOf(form: Form): (r: Option<int>)
    ensures "file_size" !in form ==> r == Some(0)
    ensures "file_size" in form ==> r == ParseInt(form["file_size"])
  {
    match Field(form, "file_size")
    case None => Some(0)
    case Some(s) => ParseInt(s)
  }

  /**
   * POST /device/<id>/firmware. Without a URL nothing is sent; otherwise a firmware
   * download (file type 1) is requested, and the route succeeds when the manager
   * hands back a truthy operation id. `commandKey` is the UUID the manager generates.
   */
  method FirmwareRoute(config: AppConfig, store: Store, deviceId: string, form: Form, commandKey: string,
                       send: Request -> Reply)
    returns (outcome: RouteOutcome, sent: Option<seq<(DownloadTag, string)>>)
    modifies store
    ensures config.manager.None? ==> outcome == NotConfigured && sent.None?
    ensures config.manager.Some? && !Truthy(Field(form, "firmware_url")) ==> outcome == InputMissing && sent.None?
    ensures config.manager.Some? && Truthy(Field(form, "firmware_url")) && FileSizeOf(form).None? ==>
      outcome == Raised && sent.None?
    ensures sent.Some? <==> config.manager.Some? && Truthy(Field(form, "firmware_url")) && FileSizeOf(form).Some?
    ensures sent.Some? ==> sent.value == DownloadFields(commandKey, 1, form["firmware_url"], Field(form, "username"),
      Field(form, "password"), FileSizeOf(form).value, Field(form, "filename"))
    ensures sent.Some? ==> sent.value[1] == (FileType, "1")
    ensures outcome == Succeeded <==> sent.Some? && Accepted(send(DownloadRequest(sent.value))) && commandKey != ""
    ensures sent.Some? && outcome != Succeeded ==> outcome == Failed
    ensures store.State() == LoggedIf(old(store.State()), outcome == Succeeded,
      LogEntry("info", "TR-069", "Atualização de firmware iniciada para o dispositivo " + deviceId))
  {
    if config.manager.None? {
      return NotConfigured, None;
    }
    var url := Field(form, "firmware_url");
    if !Truthy(url) {
      return InputMissing, None;
    }
    var size := FileSizeOf(form);
    if size.None? {
      return Raised, None;
    }
    var fields := DownloadFields(commandKey, 1, url.value, Field(form, "username"), Field(form, "password"),
                                 size.value, Field(form, "filename"));
    sent := Some(fields);
    var operationId := Download(commandKey, 1, url.value, Field(form, "username"), Field(form, "password"),
                                size.value, Field(form, "filename"), send);
    assert IntToString(1) == "1";
    if Truthy(operationId) {
      store.Log("info", "TR-069", "Atualização de firmware iniciada para o dispositivo " + deviceId);
      outcome := Succeeded;
    } else {
      outcome := Failed;
    }
  }

  /** POST /device/<id>/reboot */
  method RebootRoute(config: AppConfig, store: Store, deviceId: string, send: Request -> Reply)
    returns (outcome: RouteOutcome)
    modifies store
    ensures config.manager.None? ==> outcome == NotConfigured
    ensures config.manager.Some? ==> outcome == (if send(RebootRequest).Response? then Succeeded else Failed)
    ensures store.State() == LoggedIf(old(store.State()), outcome == Succeeded,
      LogEntry("info", "TR-069", "Dispositivo " + deviceId + " reiniciado"))
  {
    if config.manager.None? {
      return NotConfigured;
    }
    if RebootDevice(send) {
      store.Log("info", "TR-069", "Dispositivo " + deviceId + " reiniciado");
      outcome := Succeeded;
    } else {
      outcome := Failed;
    }
  }

  /** POST /device/<id>/factory-reset; the log entry is a warning. */
  method FactoryResetRoute(config: AppConfig, store: Store, deviceId: string, send: Request -> Reply)
    returns (outcome: RouteOutcome)
    modifies store
    ensures config.manager.None? ==> outcome == NotConfigured
    ensures config.manager.Some? ==> outcome == (if send(FactoryResetRequest).Response? then Succeeded else Failed)
    ensures store.State() == LoggedIf(old(store.State()), outcome == Succeeded,
      LogEntry("warning", "TR-069", "Configurações de fábrica restauradas para o dispositivo " + deviceId))
  {
    if config.manager.None? {
      return NotConfigured;
    }
    if FactoryReset(send) {
      store.Log("warning", "TR-069", "Configurações de fábrica restauradas para o dispositivo " + deviceId);
      outcome := Succeeded;
    } else {
      outcome := Failed;
    }
  }

  /** POST /device/<id>/diagnostics: succeeds when the results dictionary is non-empty. */
  method DiagnosticsRoute(config: AppConfig, store: Store, deviceId: string, form: Form,
                          send: Request -> Reply, fetch: seq<string> -> Option<ParamMap>)
    returns (outcome: RouteOutcome, results: Option<ParamMap>)
    modifies store
    ensures config.manager.None? ==> outcome == NotConfigured && results.None?
    ensures config.manager.Some? && !Truthy(Field(form, "diagnostic_type")) ==> outcome == InputMissing && results.None?
    ensures config.manager.Some? && Truthy(Field(form, "diagnostic_type")) ==>
      results == RunDiagnostics(form["diagnostic_type"], send, fetch)
      && outcome == (if results.Some? && results.value != map[] then Succeeded else Failed)
    ensures store.State() == LoggedIf(old(store.State()), outcome == Succeeded,
      LogEntry("info", "TR-069", "Diagnóstico " + Field(form, "diagnostic_type").GetOr("") + " executado para o dispositivo " + deviceId))
  {
    if config.manager.None? {
      return NotConfigured, None;
    }
    var kind := Field(form, "diagnostic_type");
    if !Truthy(kind) {
      return InputMissing, None;
    }
    results := RunDiagnostics(kind.value, send, fetch);
    if results.Some? && results.value != map[] {
      store.Log("info", "TR-069", "Diagnóstico " + kind.value + " executado para o dispositivo " + deviceId);
      outcome := Succeeded;
    } else {
      outcome := Failed;
    }
  }

  // ---------------------------------------------------------------------------
  // The ACS server and the manager held in the configuration
  // ---------------------------------------------------------------------------

  /** POST /acs/start: creates the server from the configuration only when there is none. */
  method StartAcs(config: AppConfig, store: Store) returns (outcome: RouteOutcome)
    modifies config, store
    ensures outcome == Succeeded
    ensures old(config.acsServer).Some? ==> config.acsServer == old(config.acsServer)
    ensures old(config.acsServer).None? ==> config.acsServer.Some? && fresh(config.acsServer.value)
    ensures old(config.acsServer).None? ==>
      var s := config.acsServer.value;
      s.listenHost == config.acsHost.GetOr("0.0.0.0") && s.listenPort == config.acsPort.GetOr(7547)
      && s.username == config.acsUsername && s.password == config.acsPassword && s.devices == map[]
    ensures config.acsHost == old(config.acsHost) && config.acsPort == old(config.acsPort)
    ensures config.acsUsername == old(config.acsUsername) && config.acsPassword == old(config.acsPassword)
    ensures config.manager == old(config.manager)
    ensures store.State() == LoggedIf(old(store.State()), true, LogEntry("info", "Sistema", "Servidor ACS iniciado"))
  {
    var server: AcsServer;
    if config.acsServer.None? {
      server := new AcsServer(config.acsHost.GetOr("0.0.0.0"), config.acsPort.GetOr(7547),
                              config.acsUsername, config.acsPassword);
      config.acsServer := Some(server);
    } else {
      server := config.acsServer.value;
    }
    var ok := server.Start();
    if ok {
      store.Log("info", "Sistema", "Servidor ACS iniciado");
      outcome := Succeeded;
    } else {
      outcome := Failed;
    }
  }

  /** POST /acs/stop */
  method StopAcs(config: AppConfig, store: Store) returns (outcome: RouteOutcome)
    modifies store
    ensures outcome == if config.acsServer.None? then NotConfigured else Succeeded
    ensures store.State() == LoggedIf(old(store.State()), outcome == Succeeded, LogEntry("info", "Sistema", "Servidor ACS parado"))
  {
    if config.acsServer.None? {
      return NotConfigured;
    }
    var ok := config.acsServer.value.Stop();
    if ok {
      store.Log("info", "Sistema", "Servidor ACS parado");
      outcome := Succeeded;
    } else {
      outcome := Failed;
    }
  }

  /** `int(request.form.get('port', 7547))`; None stands for the ValueError. */
  function SettingsPort(form: Form): (r: Option<int>)
    ensures "port" !in form ==> r == Some(7547)
    ensures "port" in form ==> r == ParseInt(form["port"])
  {
    match Field(form, "port")
    case None => Some(7547)
    case Some(s) => ParseInt(s)
  }

  /** The manager URL for an ACS address. */
  function AcsUrl(host: string, port: int): string {
    "http://" + host + ":" + IntToString(port)
  }

  /** The manager after the settings are saved: an existing one is kept as it is. */
  function SettingsManager(existing: Option<Manager>, host: string, port: int,
                           username: Option<string>, password: Option<string>): (r: Option<Manager>)
    ensures r.Some?
    ensures existing.Some? ==> r == existing
    ensures existing.None? ==> r.value.username == username && r.value.password == password
  {
    if existing.Some? then existing else Some(Manager(AcsUrl(host, port), username, password))
  }

  /** The port can be read back from a new manager's URL after the last ':'. */
  lemma {:induction false} AcsUrlPort(host: string, port: int)
    ensures var url := AcsUrl(host, port);
      |"http://" + host + ":"| < |url| && ParseInt(url[|"http://" + host + ":"|..]) == Some(port)
  {
    var url := AcsUrl(host, port);
    var head := "http://" + host + ":";
    assert url == head + IntToString(port);
    assert url[|head|..] == IntToString(port);
    ParseIntToString(port);
    NatToStringDigits(if port < 0 then -port else port);
  }

  /** Saving the settings twice: the manager keeps the URL of the first save. */
  lemma SettingsKeepFirstUrl(h1: string, p1: int, h2: string, p2: int,
                             u1: Option<string>, w1: Option<string>, u2: Option<string>, w2: Option<string>)
    ensures SettingsManager(SettingsManager(None, h1, p1, u1, w1), h2, p2, u2, w2).value.acsUrl == AcsUrl(h1, p1)
  {
  }

  /**
   * POST /acs/settings. The host is written first, so a port that is not an integer
   * raises after the host has already changed. The running ACS server is not touched.
   */
  method AcsSettings(config: AppConfig, form: Form) returns (outcome: RouteOutcome)
    modifies config
    ensures config.acsHost == Some(Field(form, "host").GetOr("0.0.0.0"))
    ensures config.acsServer == old(config.acsServer)
    ensures SettingsPort(form).None? ==>
      outcome == Raised
      && config.acsPort == old(config.acsPort) && config.acsUsername == old(config.acsUsername)
      && config.acsPassword == old(config.acsPassword) && config.manager == old(config.manager)
    ensures SettingsPort(form).Some? ==>
      outcome == Succeeded
      && config.acsPort == SettingsPort(form)
      && config.acsUsername == Field(form, "username") && config.acsPassword == Field(form, "password")
      && config.manager == SettingsManager(old(config.manager), Field(form, "host").GetOr("0.0.0.0"),
                                           SettingsPort(form).value, Field(form, "username"), Field(form, "password"))
  {
    var host := Field(form, "host").GetOr("0.0.0.0");
    config.acsHost := Some(host);
    var port := SettingsPort(form);
    if port.None? {
      return Raised;
    }
    config.acsPort := Some(port.value);
    config.acsUsername := Field(form, "username");
    config.acsPassword := Field(form, "password");
    if config.manager.None? {
      config.manager := Some(Manager(AcsUrl(host, port.value), config.acsUsername, config.acsPassword));
    }
    outcome := Succeeded;
  }
}
