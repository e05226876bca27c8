/**
 * The OLT routes (app/controllers/olt.py): add with the duplicate-address guard, delete
 * with the ONU cascade, the details counts, and the SNMP refresh that reconciles the
 * polled ONU list with the ONU table.
 *
 * A route that raises outside a `try` commits nothing; Flask answers with an error page.
 */
module OltController {
  import opened Wrappers
  import opened PyText
  import opened SnmpManager
  import opened Inventory

  // ---------------------------------------------------------------------------
  // add_olt
  // ---------------------------------------------------------------------------

  /** The posted form; an absent field is None. */
  datatype OltForm = OltForm(
    name: string, ip: string, model: Option<string>, vendor: Option<string>,
    community: string, version: Option<string>, snmpPort: Option<string>)

  datatype AddOltOutcome = OltAdded(id: nat) | DuplicateIp | PortNotInteger

  /** `int(request.form.get('snmp_port', 161))`; None is the ValueError int() raises. */
  function PortOf(form: OltForm): Option<int> {
    match form.snmpPort
    case None => Some(161)
    case Some(text) => ParseInt(text)
  }

  function AddOltSpec(db: Db, form: OltForm, now: int): (Db, AddOltOutcome) {
    match PortOf(form)
    case None => (db, PortNotInteger)
    case Some(port) =>
      if OltWithIp(db.olts, form.ip).Some? then (db, DuplicateIp)
      else
        var olt := Olt(db.nextOltId, form.name, form.ip, Some(form.model.GetOr("MA5800-X7")),
                       Some(form.vendor.GetOr("Huawei")), form.community, Some(form.version.GetOr("2c")),
                       port, "unknown", None, now);
        var entry := LogEntry("info", "Sistema", "Nova OLT adicionada: " + form.name + " (" + form.ip + ")");
        (db.(olts := db.olts + [olt], logs := db.logs + [entry], nextOltId := db.nextOltId + 1), OltAdded(olt.id))
  }

  method AddOlt(store: Store, form: OltForm, now: int) returns (outcome: AddOltOutcome)
    modifies store
    ensures (store.State(), outcome) == AddOltSpec(old(store.State()), form, now)
  {
    var port := PortOf(form);
    if port.None? {
      return PortNotInteger;
    }
    if OltWithIp(store.olts, form.ip).Some? {
      return DuplicateIp;
    }
    var olt := Olt(store.nextOltId, form.name, form.ip, Some(form.model.GetOr("MA5800-X7")),
                   Some(form.vendor.GetOr("Huawei")), form.community, Some(form.version.GetOr("2c")),
                   port.value, "unknown", None, now);
    store.olts := store.olts + [olt];
    store.nextOltId := store.nextOltId + 1;
    store.Log("info", "Sistema", "Nova OLT adicionada: " + form.name + " (" + form.ip + ")");
    outcome := OltAdded(olt.id);
  }

  /**
   * A port that int() refuses or an address already registered changes nothing;
   * otherwise exactly one OLT with status 'unknown' and one info log are added, with
   * the form's defaults filled in.
   */
  lemma AddOltOutcomes(db: Db, form: OltForm, now: int)
    ensures var (after, outcome) := AddOltSpec(db, form, now);
            (outcome.PortNotInteger? <==> PortOf(form).None?)
            && (outcome.DuplicateIp? <==> PortOf(form).Some? && exists j :: 0 <= j < |db.olts| && db.olts[j].ip == form.ip)
            && (!outcome.OltAdded? ==> after == db)
            && (outcome.OltAdded? ==>
                  after.onus == db.onus
                  && |after.olts| == |db.olts| + 1 && after.olts[..|db.olts|] == db.olts
                  && after.olts[|db.olts|].ip == form.ip
                  && after.olts[|db.olts|].status == "unknown"
                  && after.olts[|db.olts|].snmpPort == PortOf(form).value
                  && (form.snmpPort.None? ==> after.olts[|db.olts|].snmpPort == 161)
                  && (form.model.None? ==> after.olts[|db.olts|].model == Some("MA5800-X7"))
                  && (form.vendor.None? ==> after.olts[|db.olts|].vendor == Some("Huawei"))
                  && (form.version.None? ==> after.olts[|db.olts|].version == Some("2c"))
                  && after.logs == db.logs + [LogEntry("info", "Sistema", "Nova OLT adicionada: " + form.name + " (" + form.ip + ")")])
  {
    var (after, outcome) := AddOltSpec(db, form, now);
    if PortOf(form).Some? && OltWithIp(db.olts, form.ip).Some? {
      var k := OltWithIp(db.olts, form.ip).value;
      assert db.olts[k].ip == form.ip;
    }
  }

  predicate UniqueIps(olts: seq<Olt>) {
    forall i, j :: 0 <= i < j < |olts| ==> olts[i].ip != olts[j].ip
  }

  /** The duplicate guard keeps addresses unique, and new keys keep the key invariant. */
  lemma AddOltKeepsInvariants(db: Db, form: OltForm, now: int)
    requires Valid(db) && UniqueIps(db.olts)
    ensures Valid(AddOltSpec(db, form, now).0) && UniqueIps(AddOltSpec(db, form, now).0.olts)
  {
  }

  // ---------------------------------------------------------------------------
  // delete_olt
  // ---------------------------------------------------------------------------

  datatype DeleteOutcome = Deleted | NotFound

  function DeleteOltSpec(db: Db, id: int): (Db, DeleteOutcome) {
    match OltAt(db.olts, id)
    case None => (db, NotFound)
    case Some(k) =>
      var olt := db.olts[k];
      var entry := LogEntry("warning", "Sistema", "OLT removida: " + olt.name + " (" + olt.ip + ")");
      (db.(olts := RemoveOlt(db.olts, k), onus := OnusNotOf(db.onus, id), logs := db.logs + [entry]), Deleted)
  }

  method DeleteOlt(store: Store, id: int) returns (outcome: DeleteOutcome)
    modifies store
    ensures (store.State(), outcome) == DeleteOltSpec(old(store.State()), id)
  {
    var k := OltAt(store.olts, id);
    if k.None? {
      return NotFound;
    }
    var olt := store.olts[k.value];
    store.Log("warning", "Sistema", "OLT removida: " + olt.name + " (" + olt.ip + ")");
    store.onus := OnusNotOf(store.onus, id);
    store.olts := RemoveOlt(store.olts, k.value);
    outcome := Deleted;
  }

  /**
   * Deleting an OLT removes it and every ONU attached to it, keeps every other row,
   * and adds one warning log; an unknown id changes nothing.
   */
  lemma {:induction false} DeleteOltCascade(db: Db, id: int)
    requires Valid(db)
    ensures var (after, outcome) := DeleteOltSpec(db, id);
            (outcome.NotFound? <==> forall j :: 0 <= j < |db.olts| ==> db.olts[j].id != id)
            && (outcome.NotFound? ==> after == db)
            && (outcome.Deleted? ==>
                  (forall o :: o in after.olts <==> o in db.olts && o.id != id)
                  && (forall o :: o in after.onus <==> o in db.onus && o.oltId != id)
                  && |after.logs| == |db.logs| + 1 && after.logs[|db.logs|].level == "warning"
                  && Valid(after))
  {
    match OltAt(db.olts, id)
    case None =>
    case Some(k) =>
      RemoveOltKeeps(db.olts, k, db.nextOltId);
      OnusNotOfValid(db.onus, id, db.nextOnuId);
  }

  /** Removing the row at k, whose key is unique, keeps exactly the rows with another key. */
  lemma RemoveOltKeeps(olts: seq<Olt>, k: nat, next: nat)
    requires k < |olts| && OltIdsValid(olts, next)
    ensures forall o :: o in RemoveOlt(olts, k) <==> o in olts && o.id != olts[k].id
    ensures OltIdsValid(RemoveOlt(olts, k), next)
  {
    var r := RemoveOlt(olts, k);
    forall o
      ensures o in r <==> o in olts && o.id != olts[k].id
    {
      if o in r {
        var j :| 0 <= j < |r| && r[j] == o;
        if j < k {
          assert olts[j].id < olts[k].id;
        } else {
          assert olts[k].id < olts[j + 1].id;
        }
      }
      if o in olts && o.id != olts[k].id {
        var j :| 0 <= j < |olts| && olts[j] == o;
        if j < k {
          assert r[j] == o;
        } else {
          assert r[j - 1] == o;
        }
      }
    }
    forall i, j | 0 <= i < j < |r|
      ensures r[i].id < r[j].id
    {
      var i' := if i < k then i else i + 1;
      var j' := if j < k then j else j + 1;
      assert r[i] == olts[i'] && r[j] == olts[j'];
    }
  }

  // ---------------------------------------------------------------------------
  // edit_olt
  // ---------------------------------------------------------------------------

  datatype EditOltOutcome = OltEdited | OltNotFound | EditPortNotInteger

  /**
   * The edited row: every form field is written as posted, an absent model, vendor or
   * version as NULL; id, status, last check and creation time are kept.
   */
  function EditedOlt(olt: Olt, form: OltForm, port: int): Olt {
    olt.(name := form.name, ip := form.ip, model := form.model, vendor := form.vendor,
         community := form.community, version := form.version, snmpPort := port)
  }

  function EditOltSpec(db: Db, id: int, form: OltForm): (Db, EditOltOutcome) {
    match OltAt(db.olts, id)
    case None => (db, OltNotFound)
    case Some(k) =>
      match PortOf(form)
      case None => (db, EditPortNotInteger)
      case Some(port) =>
        var olt := EditedOlt(db.olts[k], form, port);
        var entry := LogEntry("info", "Sistema", "OLT editada: " + olt.name + " (" + olt.ip + ")");
        (db.(olts := db.olts[k := olt], logs := db.logs + [entry]), OltEdited)
  }

  method EditOlt(store: Store, id: int, form: OltForm) returns (outcome: EditOltOutcome)
    modifies store
    ensures (store.State(), outcome) == EditOltSpec(old(store.State()), id, form)
  {
    var k := OltAt(store.olts, id);
    if k.None? {
      return OltNotFound;
    }
    var port := PortOf(form);
    if port.None? {
      return EditPortNotInteger;
    }
    var olt := EditedOlt(store.olts[k.value], form, port.value);
    store.olts := store.olts[k.value := olt];
    store.Log("info", "Sistema", "OLT editada: " + olt.name + " (" + olt.ip + ")");
    outcome := OltEdited;
  }

  /**
   * An unknown id or a port that int() refuses changes nothing; otherwise only that
   * row's form fields change (no default is filled in, unlike add_olt), the ONUs are
   * untouched and one info log is added.
   */
  lemma EditOltFields(db: Db, id: int, form: OltForm)
    requires Valid(db)
    ensures var (after, outcome) := EditOltSpec(db, id, form);
            (outcome.OltNotFound? <==> forall j :: 0 <= j < |db.olts| ==> db.olts[j].id != id)
            && (outcome.EditPortNotInteger? <==> OltAt(db.olts, id).Some? && PortOf(form).None?)
            && (!outcome.OltEdited? ==> after == db)
            && (outcome.OltEdited? ==>
                  var k := OltAt(db.olts, id).value;
                  var b := db.olts[k];
                  var a := after.olts[k];
                  after.onus == db.onus && |after.olts| == |db.olts|
                  && (forall j :: 0 <= j < |db.olts| && j != k ==> after.olts[j] == db.olts[j])
                  && a.name == form.name && a.ip == form.ip && a.community == form.community && a.model == form.model && a.vendor == form.vendor
                  && a.version == form.version && a.snmpPort == PortOf(form).value
                  && (form.snmpPort.None? ==> a.snmpPort == 161)
                  && a.id == b.id == id && a.status == b.status && a.lastCheck == b.lastCheck
                  && a.createdAt == b.createdAt
                  && after.logs == db.logs + [LogEntry("info", "Sistema", "OLT editada: " + form.name + " (" + form.ip + ")")]
                  && Valid(after))
  {
  }

  // ---------------------------------------------------------------------------
  // olt_details
  // ---------------------------------------------------------------------------

  /** `sum(1 for onu in onus if onu.status == status)` */
  function CountStatus(onus: seq<Onu>, status: string): (n: nat)
    ensures n <= |onus|
    decreases |onus|
  {
    if onus == [] then 0
    else CountStatus(onus[..|onus| - 1], status) + (if onus[|onus| - 1].status == status then 1 else 0)
  }

  datatype Details = Details(olt: Olt, onus: seq<Onu>, total: nat, online: nat, offline: nat)

  function OltDetails(db: Db, id: int): Option<Details> {
    match OltAt(db.olts, id)
    case None => None
    case Some(k) =>
      var onus := OnusOf(db.onus, id);
      Some(Details(db.olts[k], onus, |onus|, CountStatus(onus, "online"), CountStatus(onus, "offline")))
  }

  /** Two different statuses are never counted for the same ONU. */
  lemma {:induction false} CountTwoStatuses(onus: seq<Onu>, a: string, b: string)
    requires a != b
    ensures CountStatus(onus, a) + CountStatus(onus, b) <= |onus|
    decreases |onus|
  {
    if onus != [] {
      CountTwoStatuses(onus[..|onus| - 1], a, b);
    }
  }

  /** The page shows the OLT's own ONUs only, and online + offline never exceeds the total. */
  lemma DetailsCounts(db: Db, id: int)
    ensures OltDetails(db, id).None? <==> forall j :: 0 <= j < |db.olts| ==> db.olts[j].id != id
    ensures OltDetails(db, id).Some? ==>
              var d := OltDetails(db, id).value;
              d.olt.id == id && d.online + d.offline <= d.total == |d.onus|
              && (forall o :: o in d.onus <==> o in db.onus && o.oltId == id)
  {
    if OltDetails(db, id).Some? {
      CountTwoStatuses(OnusOf(db.onus, id), "online", "offline");
    }
  }

  // ---------------------------------------------------------------------------
  // refresh_olt
  // ---------------------------------------------------------------------------

  /** The SNMP manager built from the OLT's row; a NULL version, like "", is not "2c". */
  function ManagerOf(olt: Olt): Manager {
    Manager(olt.ip, olt.community, olt.snmpPort, olt.version.GetOr(""))
  }

  /**
   * The session after one polled entry; or at the exception and its text; or at a
   * serial that is already registered under another OLT, whose second row can never be
   * flushed (`serial_number` is unique), so the request ends in an error that the
   * handler's own commit repeats and nothing of it is committed.
   */
  datatype Step = Continue(db: Db) | Raised(db: Db, detail: string) | Crashed(db: Db)

  /** The row a newly detected ONU gets (`onu_info.get('port', 'unknown')`: entries carry no port). */
  function DetectedOnu(id: nat, oltId: nat, e: OnuEntry, now: int): Onu {
    Onu(id, e.serial, "ONU-" + e.id, oltId, "unknown", "unknown", None, None, now)
  }

  /** The row for an entry: the existing one, or a new one with its detection log. */
  function Located(db: Db, olt: Olt, e: OnuEntry, now: int): (r: (Db, nat))
    ensures r.1 < |r.0.onus|
    ensures r.0.olts == db.olts
  {
    match OnuOfOlt(db.onus, e.serial, olt.id)
    case Some(k) => (db, k)
    case None =>
      var entry := LogEntry("info", "OLT " + olt.name, "Nova ONU detectada: " + e.serial);
      (db.(onus := db.onus + [DetectedOnu(db.nextOnuId, olt.id, e, now)], logs := db.logs + [entry],
           nextOnuId := db.nextOnuId + 1), |db.onus|)
  }

  /** The row after the status fetch: written only when the fetch returned no error. */
  function WithStatus(onu: Onu, status: Fetched): Onu {
    if status.error.None? && status.value.Some? then onu.(status := status.value.value) else onu
  }

  /** What the agent answers for one ONU: its status and its signal reading. */
  datatype Reading = Reading(status: Fetched, signal: Signal)

  /** The status GET and the signal GET for one ONU id. */
  function ReadingOf(m: Manager, agent: Agent, onuId: string): (r: Reading)
    ensures r.status.value.Some? <==> r.status.error.None?
    ensures r.status.error.None? ==> r.status.value.value in {"online", "offline", "disabled", "unknown"}
  {
    Reading(GetOnuStatus(m, onuId, agent), GetOnuSignal(m, onuId, agent))
  }

  /** The readings of every polled entry, as the loop makes them. */
  function Reader(m: Manager, agent: Agent): OnuEntry -> Reading {
    (e: OnuEntry) => ReadingOf(m, agent, e.id)
  }

  /**
   * The row after the two readings, and the exception text when converting the signal
   * raised (the status has then already been assigned, the last-seen time not).
   */
  function Polled(onu: Onu, reading: Reading, now: int): (r: (Onu, Option<string>))
    ensures r.0.id == onu.id && r.0.serial == onu.serial && r.0.name == onu.name && r.0.oltId == onu.oltId
            && r.0.port == onu.port && r.0.createdAt == onu.createdAt
    ensures r.0.status == if reading.status.error.None? && reading.status.value.Some? then reading.status.value.value else onu.status
    ensures r.0.signal == if reading.signal.SignalValue? then Some(reading.signal.dbm) else onu.signal
    ensures r.0.lastSeen == if reading.signal.SignalRaises? then onu.lastSeen else Some(now)
    ensures r.1.Some? <==> reading.signal.SignalRaises?
  {
    var onu1 := WithStatus(onu, reading.status);
    match reading.signal
    case SignalRaises(detail) => (onu1, Some(detail))
    case SignalError(_) => (onu1.(lastSeen := Some(now)), None)
    case SignalValue(v) => (onu1.(signal := Some(v), lastSeen := Some(now)), None)
  }

  /** One pass of the loop body for one polled entry, given the agent's answers for it. */
  function ReconcileEntry(db: Db, olt: Olt, e: OnuEntry, reading: Reading, now: int): (r: Step)
    ensures r.db.olts == db.olts
  {
    if OnuOfOlt(db.onus, e.serial, olt.id).None? && OnuWithSerial(db.onus, e.serial).Some? then Crashed(db)
    else
      var (db1, k) := Located(db, olt, e, now);
      var (onu, raised) := Polled(db1.onus[k], reading, now);
      var db2 := db1.(onus := db1.onus[k := onu]);
      if raised.Some? then Raised(db2, raised.value) else Continue(db2)
  }

  /** The loop over the polled list; the first exception or duplicate serial ends it. */
  function ReconcileAll(db: Db, olt: Olt, read: OnuEntry -> Reading, entries: seq<OnuEntry>, now: int): (r: Step)
    ensures r.db.olts == db.olts
    decreases |entries|
  {
    if entries == [] then Continue(db)
    else match ReconcileAll(db, olt, read, entries[..|entries| - 1], now)
      case Raised(d, detail) => Raised(d, detail)
      case Crashed(d) => Crashed(d)
      case Continue(d) => ReconcileEntry(d, olt, entries[|entries| - 1], read(entries[|entries| - 1]), now)
  }

  datatype RefreshOutcome =
    | RefreshNotFound
    | SystemInfoFailed(error: string)
    | OnuListFailed(error: string)
    | Refreshed(found: nat)
    | RefreshFailed(detail: string)
    | RefreshCrashed

  function SummaryMessage(n: nat): string {
    "Dados atualizados com sucesso. " + IntToString(n) + " ONUs encontradas."
  }

  function RefreshOltSpec(db: Db, id: int, agent: Agent, now: int): (Db, RefreshOutcome) {
    match OltAt(db.olts, id)
    case None => (db, RefreshNotFound)
    case Some(i) =>
      var olt := db.olts[i];
      var source := "OLT " + olt.name;
      var (info, err) := GetSystemInfo(ManagerOf(olt), agent);
      var fault := TransportRaise(ManagerOf(olt), agent);
      if fault.Some? then
        (db.(olts := db.olts[i := olt.(status := "error", lastCheck := Some(now))],
             logs := db.logs + [LogEntry("error", source, "Erro ao atualizar dados: " + fault.value)]),
         RefreshFailed(fault.value))
      else if err.Some? then
        (db.(logs := db.logs + [LogEntry("error", source, "Erro ao obter informações do sistema: " + err.value)]),
         SystemInfoFailed(err.value))
      else
        var db1 := db.(olts := db.olts[i := olt.(status := "online", lastCheck := Some(now))]);
        var listing := OnuListSpec(ManagerOf(olt), agent);
        if listing.error.Some? then
          (db1.(logs := db1.logs + [LogEntry("error", source, "Erro ao obter lista de ONUs: " + listing.error.value)]),
           OnuListFailed(listing.error.value))
        else
          var entries := listing.entries.value;
          match ReconcileAll(db1, olt, Reader(ManagerOf(olt), agent), entries, now)
          case Continue(d) =>
            (d.(logs := d.logs + [LogEntry("info", source, SummaryMessage(|entries|))]), Refreshed(|entries|))
          case Raised(d, detail) =>
            (d.(olts := d.olts[i := d.olts[i].(status := "error", lastCheck := Some(now))],
                logs := d.logs + [LogEntry("error", source, "Erro ao atualizar dados: " + detail)]),
             RefreshFailed(detail))
          case Crashed(_) => (db, RefreshCrashed)
  }

  /**
   * The loop body: find or create the row, then apply the status and signal readings;
   * a serial registered under another OLT changes nothing and reports the crash.
   */
  method ReconcileOne(store: Store, olt: Olt, e: OnuEntry, reading: Reading, now: int)
      returns (raised: Option<string>, crashed: bool)
    modifies store
    ensures ReconcileEntry(old(store.State()), olt, e, reading, now)
              == if crashed then Crashed(store.State())
                 else if raised.None? then Continue(store.State()) else Raised(store.State(), raised.value)
  {
    var found := OnuOfOlt(store.onus, e.serial, olt.id);
    if found.None? && OnuWithSerial(store.onus, e.serial).Some? {
      return None, true;
    }
    crashed := false;
    var k: nat;
    if found.None? {
      store.onus := store.onus + [DetectedOnu(store.nextOnuId, olt.id, e, now)];
      store.nextOnuId := store.nextOnuId + 1;
      store.Log("info", "OLT " + olt.name, "Nova ONU detectada: " + e.serial);
      k := |store.onus| - 1;
    } else {
      k := found.value;
    }
    var onu := store.onus[k];
    var status := reading.status;
    if status.error.None? && status.value.Some? {
      onu := onu.(status := status.value.value);
    }
    match reading.signal {
      case SignalRaises(detail) =>
        store.onus := store.onus[k := onu];
        return Some(detail), false;
      case SignalError(_) =>
        onu := onu.(lastSeen := Some(now));
      case SignalValue(v) =>
        onu := onu.(signal := Some(v), lastSeen := Some(now));
    }
    store.onus := store.onus[k := onu];
    raised := None;
  }

  /** Once an entry has raised or crashed, the rest of the list is never looked at. */
  lemma {:induction false} RaisedStays(db: Db, olt: Olt, read: OnuEntry -> Reading, entries: seq<OnuEntry>, n: nat, now: int)
    requires n <= |entries| && !ReconcileAll(db, olt, read, entries[..n], now).Continue?
    ensures ReconcileAll(db, olt, read, entries, now) == ReconcileAll(db, olt, read, entries[..n], now)
    decreases |entries| - n
  {
    if n < |entries| {
      assert entries[..|entries| - 1][..n] == entries[..n];
      RaisedStays(db, olt, read, entries[..|entries| - 1], n, now);
    } else {
      assert entries[..n] == entries;
    }
  }

  /** The loop of refresh_olt over the polled list, up to the first exception or crash. */
  method ReconcileList(store: Store, olt: Olt, m: Manager, agent: Agent, onuList: seq<OnuEntry>, now: int)
      returns (raised: Option<string>, crashed: bool)
    modifies store
    ensures ReconcileAll(old(store.State()), olt, Reader(m, agent), onuList, now)
              == if crashed then Crashed(store.State())
                 else if raised.None? then Continue(store.State()) else Raised(store.State(), raised.value)
  {
    ghost var db0 := store.State();
    var n := 0;
    raised, crashed := None, false;
    while n < |onuList| && raised.None? && !crashed
      invariant 0 <= n <= |onuList|
      invariant ReconcileAll(db0, olt, Reader(m, agent), onuList[..n], now)
                  == if crashed then Crashed(store.State())
                     else if raised.None? then Continue(store.State()) else Raised(store.State(), raised.value)
      decreases |onuList| - n
    {
      assert onuList[..n + 1][..n] == onuList[..n];
      var reading := Reading(GetOnuStatus(m, onuList[n].id, agent), GetOnuSignal(m, onuList[n].id, agent));
      assert reading == Reader(m, agent)(onuList[n]);
      raised, crashed := ReconcileOne(store, olt, onuList[n], reading, now);
      n := n + 1;
    }
    if raised.None? && !crashed {
      assert onuList[..n] == onuList;
    } else {
      RaisedStays(db0, olt, Reader(m, agent), onuList, n, now);
    }
  }

  method RefreshOlt(store: Store, id: int, agent: Agent, now: int) returns (outcome: RefreshOutcome)
    modifies store
    ensures (store.State(), outcome) == RefreshOltSpec(old(store.State()), id, agent, now)
  {
    var before := store.State();
    var found := OltAt(store.olts, id);
    if found.None? {
      return RefreshNotFound;
    }
    var i := found.value;
    var olt := store.olts[i];
    var source := "OLT " + olt.name;
    var m := ManagerOf(olt);
    var fault := TransportRaise(m, agent);
    if fault.Some? {
      store.olts := store.olts[i := olt.(status := "error", lastCheck := Some(now))];
      store.Log("error", source, "Erro ao atualizar dados: " + fault.value);
      return RefreshFailed(fault.value);
    }
    var (info, err) := GetSystemInfo(m, agent);
    if err.Some? {
      store.Log("error", source, "Erro ao obter informações do sistema: " + err.value);
      return SystemInfoFailed(err.value);
    }
    store.olts := store.olts[i := olt.(status := "online", lastCheck := Some(now))];
    var entries, listErr := GetOnuList(m, agent);
    if listErr.Some? {
      store.Log("error", source, "Erro ao obter lista de ONUs: " + listErr.value);
      return OnuListFailed(listErr.value);
    }
    var onuList := entries.value;
    var raised, crashed := ReconcileList(store, olt, m, agent, onuList, now);
    if raised.None? && !crashed {
      store.Log("info", source, SummaryMessage(|onuList|));
      return Refreshed(|onuList|);
    }
    if crashed {
      // the transaction is rolled back: the request commits nothing
      store.olts, store.onus, store.logs, store.nextOltId, store.nextOnuId := before.olts, before.onus, before.logs, before.nextOltId, before.nextOnuId;
      return RefreshCrashed;
    }
    store.olts := store.olts[i := store.olts[i].(status := "error", lastCheck := Some(now))];
    store.Log("error", source, "Erro ao atualizar dados: " + raised.value);
    outcome := RefreshFailed(raised.value);
  }

  /**
   * A system-information error logs it and changes no OLT or ONU; an ONU-list error
   * comes after the OLT was already marked 'online' with a fresh check time and
   * changes no ONU; an exception (an address that does not resolve, or a signal
   * conversion while reconciling) marks the OLT 'error'; a polled serial registered
   * under another OLT commits nothing at all.
   */
  lemma RefreshOltPaths(db: Db, id: int, agent: Agent, now: int)
    ensures var (after, outcome) := RefreshOltSpec(db, id, agent, now);
            (outcome.RefreshNotFound? ==> after == db)
            && (outcome.SystemInfoFailed? ==>
                  after.olts == db.olts && after.onus == db.onus && |after.logs| == |db.logs| + 1)
            && (outcome.OnuListFailed? ==>
                  after.onus == db.onus && |after.logs| == |db.logs| + 1
                  && var i := OltAt(db.olts, id).value;
                     after.olts == db.olts[i := db.olts[i].(status := "online", lastCheck := Some(now))])
            && (outcome.RefreshCrashed? ==> after == db)
            && (outcome.RefreshFailed? ==>
                  var i := OltAt(db.olts, id).value;
                  |after.olts| == |db.olts| && after.olts[i].status == "error" && after.olts[i].lastCheck == Some(now))
            && (outcome.Refreshed? ==>
                  var i := OltAt(db.olts, id).value;
                  |after.olts| == |db.olts| && after.olts[i].status == "online"
                  && after.logs[|after.logs| - 1] == LogEntry("info", "OLT " + db.olts[i].name, SummaryMessage(outcome.found)))
  {
    match OltAt(db.olts, id)
    case None =>
    case Some(i) =>
      var olt := db.olts[i];
      if TransportRaise(ManagerOf(olt), agent).None? && GetSystemInfo(ManagerOf(olt), agent).1.None? {
        var db1 := db.(olts := db.olts[i := olt.(status := "online", lastCheck := Some(now))]);
        var listing := OnuListSpec(ManagerOf(olt), agent);
        if listing.error.None? {
          var r := ReconcileAll(db1, olt, Reader(ManagerOf(olt), agent), listing.entries.value, now);
          assert r.db.olts == db1.olts;
        }
      }
  }

  /** The refresh ends in success exactly when both fetches are clean and no signal reading raises. */
  lemma RefreshOltSucceeds(db: Db, id: int, agent: Agent, now: int)
    requires OltAt(db.olts, id).Some?
    ensures var olt := db.olts[OltAt(db.olts, id).value];
            var listing := OnuListSpec(ManagerOf(olt), agent);
            RefreshOltSpec(db, id, agent, now).1.Refreshed? <==>
              TransportRaise(ManagerOf(olt), agent).None? && GetSystemInfo(ManagerOf(olt), agent).1.None? && listing.error.None?
              && ReconcileAll(db.(olts := db.olts[OltAt(db.olts, id).value := olt.(status := "online", lastCheck := Some(now))]),
                              olt, Reader(ManagerOf(olt), agent), listing.entries.value, now).Continue?
  {
  }

  /**
   * Reconciling one entry: the row found by (serial, OLT) or, when there is none,
   * exactly one new row named 'ONU-<id>' with port and status 'unknown' and one detection
   * log; its status changes only when the status fetch succeeded, its signal only when
   * the signal fetch did, and its last-seen time is set unless the signal read raised.
   */
  lemma ReconcileEntryEffect(db: Db, olt: Olt, e: OnuEntry, reading: Reading, now: int)
    ensures var r := ReconcileEntry(db, olt, e, reading, now);
            var st := reading.status;
            var sig := reading.signal;
            var found := OnuOfOlt(db.onus, e.serial, olt.id);
            var k := if found.Some? then found.value else |db.onus|;
            var before := if found.Some? then db.onus[k] else DetectedOnu(db.nextOnuId, olt.id, e, now);
            var taken := found.None? && OnuWithSerial(db.onus, e.serial).Some?;
            (r.Crashed? <==> taken) && (r.Crashed? ==> r.db == db)
            && (r.Raised? <==> !taken && sig.SignalRaises?)
            && (!taken ==>
                  (found.Some? ==> r.db.onus == db.onus[k := r.db.onus[k]] && r.db.logs == db.logs && r.db.nextOnuId == db.nextOnuId)
                  && (found.None? ==>
                        |r.db.onus| == |db.onus| + 1 && r.db.onus[..|db.onus|] == db.onus
                        && r.db.nextOnuId == db.nextOnuId + 1
                        && r.db.logs == db.logs + [LogEntry("info", "OLT " + olt.name, "Nova ONU detectada: " + e.serial)])
                  && var after := r.db.onus[k];
                     after.serial == e.serial && after.oltId == olt.id
                     && after.id == before.id && after.name == before.name && after.port == before.port
                     && after.createdAt == before.createdAt
                     && after.status == (if st.error.None? && st.value.Some? then st.value.value else before.status)
                     && after.signal == (if sig.SignalValue? then Some(sig.dbm) else before.signal)
                     && after.lastSeen == (if sig.SignalRaises? then before.lastSeen else Some(now)))
  {
  }

  /** Rows that existed before keep their key, serial, name, OLT, port and creation time. */
  predicate IdentityKept(before: seq<Onu>, after: seq<Onu>) {
    |before| <= |after|
    && forall k :: 0 <= k < |before| ==>
         after[k].id == before[k].id && after[k].serial == before[k].serial
         && after[k].name == before[k].name && after[k].oltId == before[k].oltId
         && after[k].port == before[k].port && after[k].createdAt == before[k].createdAt
  }

  /** The whole loop never rewrites the identity of a row that existed, and keeps the keys valid. */
  lemma {:induction false} ReconcileAllKeeps(db: Db, olt: Olt, read: OnuEntry -> Reading, entries: seq<OnuEntry>, now: int)
    requires Valid(db)
    ensures var r := ReconcileAll(db, olt, read, entries, now);
            IdentityKept(db.onus, r.db.onus) && Valid(r.db)
    decreases |entries|
  {
    if entries != [] {
      var init := entries[..|entries| - 1];
      ReconcileAllKeeps(db, olt, read, init, now);
      var r0 := ReconcileAll(db, olt, read, init, now);
      if r0.Continue? {
        var e := entries[|entries| - 1];
        var r := ReconcileEntry(r0.db, olt, e, read(e), now);
        assert ReconcileAll(db, olt, read, entries, now) == r;
        ReconcileEntryKeeps(r0.db, olt, e, read(e), now);
        IdentityKeptTrans(db.onus, r0.db.onus, r.db.onus);
      }
    }
  }

  /** Every serial of `entries` has a row under the OLT. */
  predicate FoundAll(onus: seq<Onu>, oltId: int, entries: seq<OnuEntry>) {
    forall j :: 0 <= j < |entries| ==> OnuOfOlt(onus, entries[j].serial, oltId).Some?
  }

  /** Unless an entry raised, every polled serial has a row under this OLT afterwards. */
  lemma {:induction false} ReconcileAllFinds(db: Db, olt: Olt, read: OnuEntry -> Reading, entries: seq<OnuEntry>, now: int)
    ensures var r := ReconcileAll(db, olt, read, entries, now);
            r.Continue? ==> FoundAll(r.db.onus, olt.id, entries)
    decreases |entries|
  {
    if entries != [] {
      var init, e := entries[..|entries| - 1], entries[|entries| - 1];
      assert entries == init + [e];
      ReconcileAllFinds(db, olt, read, init, now);
      var r0 := ReconcileAll(db, olt, read, init, now);
      if r0.Continue? {
        assert ReconcileAll(db, olt, read, entries, now) == ReconcileEntry(r0.db, olt, e, read(e), now);
        ReconcileEntryFinds(r0.db, olt, e, read(e), now, init);
      }
    }
  }

  /** One entry keeps identities and keys. */
  lemma ReconcileEntryKeeps(db: Db, olt: Olt, e: OnuEntry, reading: Reading, now: int)
    requires Valid(db)
    ensures var r := ReconcileEntry(db, olt, e, reading, now);
            IdentityKept(db.onus, r.db.onus) && Valid(r.db)
  {
    ReconcileEntryEffect(db, olt, e, reading, now);
    var r := ReconcileEntry(db, olt, e, reading, now);
    assert OnuIdsValid(r.db.onus, r.db.nextOnuId) by {
      forall i, j | 0 <= i < j < |r.db.onus|
        ensures r.db.onus[i].id < r.db.onus[j].id
      {
        if j < |db.onus| {
          assert r.db.onus[i].id == db.onus[i].id && r.db.onus[j].id == db.onus[j].id;
        } else {
          assert r.db.onus[i].id == db.onus[i].id;
        }
      }
    }
  }

  /** After one entry that did not crash its own serial is found under this OLT, and so is every serial found before. */
  lemma ReconcileEntryFinds(db: Db, olt: Olt, e: OnuEntry, reading: Reading, now: int, prior: seq<OnuEntry>)
    ensures var r := ReconcileEntry(db, olt, e, reading, now);
            !r.Crashed? ==>
              OnuOfOlt(r.db.onus, e.serial, olt.id).Some?
              && (FoundAll(db.onus, olt.id, prior) ==> FoundAll(r.db.onus, olt.id, prior + [e]))
  {
    ReconcileEntryEffect(db, olt, e, reading, now);
    var r := ReconcileEntry(db, olt, e, reading, now);
    if r.Crashed? {
      return;
    }
    var found := OnuOfOlt(db.onus, e.serial, olt.id);
    var k := if found.Some? then found.value else |db.onus|;
    OnuOfOltSome(r.db.onus, e.serial, olt.id, k);
    if FoundAll(db.onus, olt.id, prior) {
      forall j | 0 <= j < |prior + [e]|
        ensures OnuOfOlt(r.db.onus, (prior + [e])[j].serial, olt.id).Some?
      {
        if j < |prior| {
          var k' := OnuOfOlt(db.onus, prior[j].serial, olt.id).value;
          OnuOfOltSome(r.db.onus, prior[j].serial, olt.id, k');
        }
      }
    }
  }

  /** No two rows share a serial: the unique index on `serial_number`. */
  predicate SerialsUnique(onus: seq<Onu>) {
    forall i, j :: 0 <= i < j < |onus| ==> onus[i].serial != onus[j].serial
  }

  /** One entry never leaves two rows with one serial: a serial taken elsewhere crashes instead. */
  lemma ReconcileEntryUnique(db: Db, olt: Olt, e: OnuEntry, reading: Reading, now: int)
    requires SerialsUnique(db.onus)
    ensures SerialsUnique(ReconcileEntry(db, olt, e, reading, now).db.onus)
  {
    ReconcileEntryEffect(db, olt, e, reading, now);
    var r := ReconcileEntry(db, olt, e, reading, now);
    if !r.Crashed? && OnuOfOlt(db.onus, e.serial, olt.id).None? {
      forall i, j | 0 <= i < j < |r.db.onus|
        ensures r.db.onus[i].serial != r.db.onus[j].serial
      {
        assert r.db.onus[i] == db.onus[i];
        if j < |db.onus| {
          assert r.db.onus[j] == db.onus[j];
        }
      }
    }
  }

  /** The whole loop keeps serials unique, whichever way it ends. */
  lemma {:induction false} ReconcileAllUnique(db: Db, olt: Olt, read: OnuEntry -> Reading, entries: seq<OnuEntry>, now: int)
    requires SerialsUnique(db.onus)
    ensures SerialsUnique(ReconcileAll(db, olt, read, entries, now).db.onus)
    decreases |entries|
  {
    if entries != [] {
      var init, e := entries[..|entries| - 1], entries[|entries| - 1];
      ReconcileAllUnique(db, olt, read, init, now);
      var r0 := ReconcileAll(db, olt, read, init, now);
      if r0.Continue? {
        ReconcileEntryUnique(r0.db, olt, e, read(e), now);
      }
    }
  }

  /** refresh_olt never commits a second row for a serial, on any path. */
  lemma RefreshOltUnique(db: Db, id: int, agent: Agent, now: int)
    requires SerialsUnique(db.onus)
    ensures SerialsUnique(RefreshOltSpec(db, id, agent, now).0.onus)
  {
    match OltAt(db.olts, id)
    case None =>
    case Some(i) =>
      var olt := db.olts[i];
      var db1 := db.(olts := db.olts[i := olt.(status := "online", lastCheck := Some(now))]);
      var listing := OnuListSpec(ManagerOf(olt), agent);
      if listing.error.None? {
        ReconcileAllUnique(db1, olt, Reader(ManagerOf(olt), agent), listing.entries.value, now);
      }
  }

  /** Keeping identities is transitive. */
  lemma IdentityKeptTrans(a: seq<Onu>, b: seq<Onu>, c: seq<Onu>)
    requires IdentityKept(a, b) && IdentityKept(b, c)
    ensures IdentityKept(a, c)
  {
  }

  /** A matching row anywhere means the lookup finds one. */
  lemma {:induction false} OnuOfOltSome(onus: seq<Onu>, serial: string, oltId: int, k: nat)
    requires k < |onus| && onus[k].serial == serial && onus[k].oltId == oltId
    ensures OnuOfOlt(onus, serial, oltId).Some?
  {
  }
}
