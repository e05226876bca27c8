/**
 * The ONU routes (app/controllers/onu.py): manual add with the duplicate-serial guard,
 * edit, delete, enable and disable through the OLT's SNMP agent, and the single-ONU refresh.
 *
 * The enable, disable and refresh routes look the OLT up with `OLT.query.get`; when it is
 * gone, the first use of `olt` raises inside the `try` and the handler raises again on
 * `olt.name`, so nothing is committed.
 */
module OnuController {
  import opened Wrappers
  import opened PyText
  import opened SnmpManager
  import opened Inventory
  import opened OltController

  // ---------------------------------------------------------------------------
  // add_onu, edit_onu, delete_onu
  // ---------------------------------------------------------------------------

  /** The posted form; an absent OLT id is None. */
  datatype OnuForm = OnuForm(serial: string, name: string, oltId: Option<string>, port: string)

  datatype AddOnuOutcome = OnuAdded(id: nat) | DuplicateSerial | OltIdNotInteger

  /** `int(request.form.get('olt_id'))`; None is the TypeError or ValueError int() raises. */
  function OltIdOf(form: OnuForm): Option<int> {
    match form.oltId
    case None => None
    case Some(text) => ParseInt(text)
  }

  function AddOnuSpec(db: Db, form: OnuForm, now: int): (Db, AddOnuOutcome) {
    match OltIdOf(form)
    case None => (db, OltIdNotInteger)
    case Some(oltId) =>
      if OnuWithSerial(db.onus, form.serial).Some? then (db, DuplicateSerial)
      else
        var onu := Onu(db.nextOnuId, form.serial, form.name, oltId, form.port, "unknown", None, None, now);
        var entry := LogEntry("info", "Sistema", "Nova ONU adicionada manualmente: " + form.name + " (" + form.serial + ")");
        (db.(onus := db.onus + [onu], logs := db.logs + [entry], nextOnuId := db.nextOnuId + 1), OnuAdded(onu.id))
  }

  method AddOnu(store: Store, form: OnuForm, now: int) returns (outcome: AddOnuOutcome)
    modifies store
    ensures (store.State(), outcome) == AddOnuSpec(old(store.State()), form, now)
  {
    var oltId := OltIdOf(form);
    if oltId.None? {
      return OltIdNotInteger;
    }
    if OnuWithSerial(store.onus, form.serial).Some? {
      return DuplicateSerial;
    }
    var onu := Onu(store.nextOnuId, form.serial, form.name, oltId.value, form.port, "unknown", None, None, now);
    store.onus := store.onus + [onu];
    store.nextOnuId := store.nextOnuId + 1;
    store.Log("info", "Sistema", "Nova ONU adicionada manualmente: " + form.name + " (" + form.serial + ")");
    outcome := OnuAdded(onu.id);
  }

  predicate UniqueSerials(onus: seq<Onu>) {
    forall i, j :: 0 <= i < j < |onus| ==> onus[i].serial != onus[j].serial
  }

  /**
   * An OLT id that int() refuses or a serial already registered changes nothing;
   * otherwise exactly one ONU with status 'unknown' and one info log are added. The
   * guard keeps serials unique and the keys valid.
   */
  lemma AddOnuOutcomes(db: Db, form: OnuForm, now: int)
    ensures var (after, outcome) := AddOnuSpec(db, form, now);
            (outcome.OltIdNotInteger? <==> OltIdOf(form).None?)
            && (outcome.DuplicateSerial? <==> OltIdOf(form).Some? && exists j :: 0 <= j < |db.onus| && db.onus[j].serial == form.serial)
            && (!outcome.OnuAdded? ==> after == db)
            && (outcome.OnuAdded? ==>
                  after.olts == db.olts
                  && |after.onus| == |db.onus| + 1 && after.onus[..|db.onus|] == db.onus
                  && after.onus[|db.onus|].serial == form.serial
                  && after.onus[|db.onus|].oltId == OltIdOf(form).value
                  && after.onus[|db.onus|].status == "unknown"
                  && |after.logs| == |db.logs| + 1 && after.logs[|db.logs|].level == "info")
    ensures Valid(db) && UniqueSerials(db.onus) ==>
              Valid(AddOnuSpec(db, form, now).0) && UniqueSerials(AddOnuSpec(db, form, now).0.onus)
  {
    if OltIdOf(form).Some? && OnuWithSerial(db.onus, form.serial).Some? {
      var k := OnuWithSerial(db.onus, form.serial).value;
      assert db.onus[k].serial == form.serial;
    }
  }

  datatype EditOutcome = Edited | EditNotFound | EditOltIdNotInteger

  function EditOnuSpec(db: Db, id: int, form: OnuForm): (Db, EditOutcome) {
    match OnuAt(db.onus, id)
    case None => (db, EditNotFound)
    case Some(k) =>
      match OltIdOf(form)
      case None => (db, EditOltIdNotInteger)
      case Some(oltId) =>
        var onu := db.onus[k].(name := form.name, oltId := oltId, port := form.port);
        var entry := LogEntry("info", "Sistema", "ONU editada: " + onu.name + " (" + onu.serial + ")");
        (db.(onus := db.onus[k := onu], logs := db.logs + [entry]), Edited)
  }

  method EditOnu(store: Store, id: int, form: OnuForm) returns (outcome: EditOutcome)
    modifies store
    ensures (store.State(), outcome) == EditOnuSpec(old(store.State()), id, form)
  {
    var k := OnuAt(store.onus, id);
    if k.None? {
      return EditNotFound;
    }
    var oltId := OltIdOf(form);
    if oltId.None? {
      return EditOltIdNotInteger;
    }
    var onu := store.onus[k.value].(name := form.name, oltId := oltId.value, port := form.port);
    store.onus := store.onus[k.value := onu];
    store.Log("info", "Sistema", "ONU editada: " + onu.name + " (" + onu.serial + ")");
    outcome := Edited;
  }

  /** Editing writes the name, the OLT and the port of that one row and nothing else, plus one log. */
  lemma EditOnuFields(db: Db, id: int, form: OnuForm)
    requires Valid(db)
    ensures var (after, outcome) := EditOnuSpec(db, id, form);
            (!outcome.Edited? ==> after == db)
            && (outcome.Edited? ==>
                  var k := OnuAt(db.onus, id).value;
                  var b := db.onus[k];
                  var a := after.onus[k];
                  after.olts == db.olts && |after.onus| == |db.onus|
                  && (forall j :: 0 <= j < |db.onus| && j != k ==> after.onus[j] == db.onus[j])
                  && a.name == form.name && a.oltId == OltIdOf(form).value && a.port == form.port
                  && a.id == b.id && a.serial == b.serial && a.status == b.status && a.signal == b.signal
                  && a.lastSeen == b.lastSeen && a.createdAt == b.createdAt
                  && after.logs == db.logs + [LogEntry("info", "Sistema", "ONU editada: " + form.name + " (" + b.serial + ")")]
                  && Valid(after))
  {
  }

  function DeleteOnuSpec(db: Db, id: int): (Db, DeleteOutcome) {
    match OnuAt(db.onus, id)
    case None => (db, NotFound)
    case Some(k) =>
      var onu := db.onus[k];
      var entry := LogEntry("warning", "Sistema", "ONU removida: " + onu.name + " (" + onu.serial + ")");
      (db.(onus := RemoveOnu(db.onus, k), logs := db.logs + [entry]), Deleted)
  }

  method DeleteOnu(store: Store, id: int) returns (outcome: DeleteOutcome)
    modifies store
    ensures (store.State(), outcome) == DeleteOnuSpec(old(store.State()), id)
  {
    var k := OnuAt(store.onus, id);
    if k.None? {
      return NotFound;
    }
    var onu := store.onus[k.value];
    store.Log("warning", "Sistema", "ONU removida: " + onu.name + " (" + onu.serial + ")");
    store.onus := RemoveOnu(store.onus, k.value);
    outcome := Deleted;
  }

  /** Deleting removes exactly the ONU with that id and adds one warning log. */
  lemma DeleteOnuExact(db: Db, id: int)
    requires Valid(db)
    ensures var (after, outcome) := DeleteOnuSpec(db, id);
            (outcome.NotFound? <==> forall j :: 0 <= j < |db.onus| ==> db.onus[j].id != id)
            && (outcome.NotFound? ==> after == db)
            && (outcome.Deleted? ==>
                  after.olts == db.olts && |after.onus| == |db.onus| - 1
                  && (forall o :: o in after.onus <==> o in db.onus && o.id != id)
                  && |after.logs| == |db.logs| + 1 && after.logs[|db.logs|].level == "warning"
                  && Valid(after))
  {
    match OnuAt(db.onus, id)
    case None =>
    case Some(k) =>
      RemoveOnuKeeps(db.onus, k, db.nextOnuId);
  }

  /** Removing the row at k, whose key is unique, keeps exactly the rows with another key. */
  lemma RemoveOnuKeeps(onus: seq<Onu>, k: nat, next: nat)
    requires k < |onus| && OnuIdsValid(onus, next)
    ensures forall o :: o in RemoveOnu(onus, k) <==> o in onus && o.id != onus[k].id
    ensures OnuIdsValid(RemoveOnu(onus, k), next)
  {
    var r := RemoveOnu(onus, k);
    forall o
      ensures o in r <==> o in onus && o.id != onus[k].id
    {
      if o in r {
        var j :| 0 <= j < |r| && r[j] == o;
        if j < k {
          assert onus[j].id < onus[k].id;
        } else {
          assert onus[k].id < onus[j + 1].id;
        }
      }
      if o in onus && o.id != onus[k].id {
        var j :| 0 <= j < |onus| && onus[j] == o;
        if j < k {
          assert r[j] == o;
        } else {
          assert r[j - 1] == o;
        }
      }
    }
    forall i, j | 0 <= i < j < |r|
      ensures r[i].id < r[j].id
    {
      var i' := if i < k then i else i + 1;
      var j' := if j < k then j else j + 1;
      assert r[i] == onus[i'] && r[j] == onus[j'];
    }
  }

  // ---------------------------------------------------------------------------
  // ONU id, enable_onu, disable_onu
  // ---------------------------------------------------------------------------

  /** `onu.port.split('/')[-1] if '/' in onu.port else '1'` */
  function OnuIdOf(port: string): string {
    if '/' in port then
      var parts := Split(port, '/');
      parts[|parts| - 1]
    else "1"
  }

  /** Without a '/' the id is "1"; otherwise it is the text after the last '/'. */
  lemma OnuIdOfPort(prefix: string, n: string)
    requires forall j :: 0 <= j < |n| ==> n[j] != '/'
    ensures OnuIdOf(prefix + "/" + n) == n
    ensures OnuIdOf(n) == "1"
  {
    var s := prefix + "/" + n;
    assert s[|prefix|] == '/';
    SplitLast(prefix, n, '/');
  }

  /** SwitchRaised is the route's `except` branch: the write raised before it was sent. */
  datatype SwitchOutcome = Switched | SwitchFailed(error: string) | SwitchRaised(detail: string) | SwitchNotFound | OltMissing

  /** The text an f-string gives for an optional error. */
  function ErrorText(err: Option<string>): string {
    match err
    case None => "None"
    case Some(e) => e
  }

  /** enable_onu (enable) and disable_onu (not enable): the same route with 1/'online' or 3/'disabled'. */
  function SwitchSpec(db: Db, id: int, agent: Agent, enable: bool): (Db, SwitchOutcome) {
    match OnuAt(db.onus, id)
    case None => (db, SwitchNotFound)
    case Some(k) =>
      var onu := db.onus[k];
      match OltAt(db.olts, onu.oltId)
      case None => (db, OltMissing)
      case Some(i) =>
        var olt := db.olts[i];
        var m := ManagerOf(olt);
        var (ok, err) := if enable then EnableOnu(m, OnuIdOf(onu.port), agent) else DisableOnu(m, OnuIdOf(onu.port), agent);
        var source := "OLT " + olt.name;
        var fault := TransportRaise(m, agent);
        if fault.Some? then
          var message := (if enable then "Erro ao habilitar ONU " else "Erro ao desabilitar ONU ") + onu.name + ": " + fault.value;
          (db.(logs := db.logs + [LogEntry("error", source, message)]), SwitchRaised(fault.value))
        else if ok then
          var message := (if enable then "ONU habilitada: " else "ONU desabilitada: ") + onu.name + " (" + onu.serial + ")";
          (db.(onus := db.onus[k := onu.(status := if enable then "online" else "disabled")],
               logs := db.logs + [LogEntry("info", source, message)]), Switched)
        else
          var message := (if enable then "Erro ao habilitar ONU " else "Erro ao desabilitar ONU ") + onu.name + ": " + ErrorText(err);
          (db.(logs := db.logs + [LogEntry("error", source, message)]), SwitchFailed(ErrorText(err)))
  }

  method Switch(store: Store, id: int, agent: Agent, enable: bool) returns (outcome: SwitchOutcome)
    modifies store
    ensures (store.State(), outcome) == SwitchSpec(old(store.State()), id, agent, enable)
  {
    var k := OnuAt(store.onus, id);
    if k.None? {
      return SwitchNotFound;
    }
    var onu := store.onus[k.value];
    var i := OltAt(store.olts, onu.oltId);
    if i.None? {
      return OltMissing;
    }
    var olt := store.olts[i.value];
    var m := ManagerOf(olt);
    var fault := TransportRaise(m, agent);
    if fault.Some? {
      store.Log("error", "OLT " + olt.name, (if enable then "Erro ao habilitar ONU " else "Erro ao desabilitar ONU ") + onu.name + ": " + fault.value);
      return SwitchRaised(fault.value);
    }
    var onuId := OnuIdOf(onu.port);
    var ok: bool, err: Option<string>;
    if enable {
      ok, err := EnableOnu(m, onuId, agent).0, EnableOnu(m, onuId, agent).1;
    } else {
      ok, err := DisableOnu(m, onuId, agent).0, DisableOnu(m, onuId, agent).1;
    }
    if ok {
      store.onus := store.onus[k.value := onu.(status := if enable then "online" else "disabled")];
      store.Log("info", "OLT " + olt.name, (if enable then "ONU habilitada: " else "ONU desabilitada: ") + onu.name + " (" + onu.serial + ")");
      outcome := Switched;
    } else {
      store.Log("error", "OLT " + olt.name, (if enable then "Erro ao habilitar ONU " else "Erro ao desabilitar ONU ") + onu.name + ": " + ErrorText(err));
      outcome := SwitchFailed(ErrorText(err));
    }
  }

  method Enable(store: Store, id: int, agent: Agent) returns (outcome: SwitchOutcome)
    modifies store
    ensures (store.State(), outcome) == SwitchSpec(old(store.State()), id, agent, true)
  {
    outcome := Switch(store, id, agent, true);
  }

  method Disable(store: Store, id: int, agent: Agent) returns (outcome: SwitchOutcome)
    modifies store
    ensures (store.State(), outcome) == SwitchSpec(old(store.State()), id, agent, false)
  {
    outcome := Switch(store, id, agent, false);
  }

  /**
   * The status becomes 'online' (enable) or 'disabled' (disable) exactly when the
   * address resolved and the OLT accepted the write, and only that field of that row
   * changes; on a refusal or an exception no row changes and one error log is added.
   */
  lemma SwitchEffects(db: Db, id: int, agent: Agent, enable: bool)
    ensures var (after, outcome) := SwitchSpec(db, id, agent, enable);
            (outcome.SwitchNotFound? || outcome.OltMissing? ==> after == db)
            && (outcome.Switched? || outcome.SwitchFailed? || outcome.SwitchRaised? ==>
                  var k := OnuAt(db.onus, id).value;
                  var olt := db.olts[OltAt(db.olts, db.onus[k].oltId).value];
                  var write := agent.write(StatusOid(OnuIdOf(db.onus[k].port)), if enable then 1 else 3);
                  after.olts == db.olts && |after.logs| == |db.logs| + 1
                  && (outcome.SwitchRaised? <==> olt.version == Some("2c") && agent.unresolved.Some?)
                  && (outcome.Switched? <==> olt.version == Some("2c") && agent.unresolved.None? && ResponseError(write).None?)
                  && (outcome.Switched? ==>
                        after.onus == db.onus[k := db.onus[k].(status := if enable then "online" else "disabled")]
                        && after.logs[|db.logs|].level == "info")
                  && (outcome.SwitchFailed? || outcome.SwitchRaised? ==>
                        after.onus == db.onus && after.logs[|db.logs|].level == "error"))
  {
    match OnuAt(db.onus, id)
    case None =>
    case Some(k) =>
      match OltAt(db.olts, db.onus[k].oltId)
      case None =>
      case Some(i) =>
        EnableDisableWrites(ManagerOf(db.olts[i]), OnuIdOf(db.onus[k].port), agent, agent);
  }

  // ---------------------------------------------------------------------------
  // refresh_onu
  // ---------------------------------------------------------------------------

  datatype OnuRefreshOutcome =
    | OnuRefreshed(statusError: Option<string>, signalError: Option<string>)
    | OnuRefreshFailed(detail: string)
    | OnuRefreshNotFound
    | OnuRefreshOltMissing

  /** The signal's error text, if the fetch returned one. */
  function SignalErrorOf(s: Signal): Option<string> {
    if s.SignalError? then Some(s.error) else None
  }

  function RefreshOnuSpec(db: Db, id: int, agent: Agent, now: int): (Db, OnuRefreshOutcome) {
    match OnuAt(db.onus, id)
    case None => (db, OnuRefreshNotFound)
    case Some(k) =>
      var onu := db.onus[k];
      match OltAt(db.olts, onu.oltId)
      case None => (db, OnuRefreshOltMissing)
      case Some(i) =>
        var olt := db.olts[i];
        var fault := TransportRaise(ManagerOf(olt), agent);
        if fault.Some? then
          var message := "Erro ao atualizar dados da ONU " + onu.name + ": " + fault.value;
          (db.(logs := db.logs + [LogEntry("error", "OLT " + olt.name, message)]), OnuRefreshFailed(fault.value))
        else
          var reading := ReadingOf(ManagerOf(olt), agent, OnuIdOf(onu.port));
          var (polled, raised) := Polled(onu, reading, now);
          var db1 := db.(onus := db.onus[k := polled]);
          if raised.Some? then
            var message := "Erro ao atualizar dados da ONU " + onu.name + ": " + raised.value;
            (db1.(logs := db1.logs + [LogEntry("error", "OLT " + olt.name, message)]), OnuRefreshFailed(raised.value))
          else (db1, OnuRefreshed(reading.status.error, SignalErrorOf(reading.signal)))
  }

  method RefreshOnu(store: Store, id: int, agent: Agent, now: int) returns (outcome: OnuRefreshOutcome)
    modifies store
    ensures (store.State(), outcome) == RefreshOnuSpec(old(store.State()), id, agent, now)
  {
    var k := OnuAt(store.onus, id);
    if k.None? {
      return OnuRefreshNotFound;
    }
    var onu := store.onus[k.value];
    var i := OltAt(store.olts, onu.oltId);
    if i.None? {
      return OnuRefreshOltMissing;
    }
    var olt := store.olts[i.value];
    var m := ManagerOf(olt);
    var fault := TransportRaise(m, agent);
    if fault.Some? {
      store.Log("error", "OLT " + olt.name, "Erro ao atualizar dados da ONU " + onu.name + ": " + fault.value);
      return OnuRefreshFailed(fault.value);
    }
    var onuId := OnuIdOf(onu.port);
    var status := GetOnuStatus(m, onuId, agent);
    var updated := onu;
    if status.error.None? {
      updated := updated.(status := status.value.value);
    }
    var signal := GetOnuSignal(m, onuId, agent);
    match signal {
      case SignalRaises(detail) =>
        store.onus := store.onus[k.value := updated];
        store.Log("error", "OLT " + olt.name, "Erro ao atualizar dados da ONU " + onu.name + ": " + detail);
        return OnuRefreshFailed(detail);
      case SignalError(_) =>
        updated := updated.(lastSeen := Some(now));
      case SignalValue(v) =>
        updated := updated.(signal := Some(v), lastSeen := Some(now));
    }
    store.onus := store.onus[k.value := updated];
    outcome := OnuRefreshed(status.error, SignalErrorOf(signal));
  }

  /**
   * An address that does not resolve changes no row and adds one error log. Otherwise
   * the refresh writes only that row: its status when the status fetch succeeded, its
   * signal when the signal fetch did, and its last-seen time unless the signal
   * conversion raised, in which case the status already assigned is committed together
   * with one error log.
   */
  lemma RefreshOnuPartial(db: Db, id: int, agent: Agent, now: int)
    ensures var (after, outcome) := RefreshOnuSpec(db, id, agent, now);
            (outcome.OnuRefreshNotFound? || outcome.OnuRefreshOltMissing? ==> after == db)
            && (outcome.OnuRefreshed? || outcome.OnuRefreshFailed? ==>
                  var k := OnuAt(db.onus, id).value;
                  var b := db.onus[k];
                  var m := ManagerOf(db.olts[OltAt(db.olts, b.oltId).value]);
                  var st := GetOnuStatus(m, OnuIdOf(b.port), agent);
                  var sig := GetOnuSignal(m, OnuIdOf(b.port), agent);
                  var a := after.onus[k];
                  var fault := TransportRaise(m, agent);
                  after.olts == db.olts
                  && (fault.Some? ==>
                        outcome == OnuRefreshFailed(fault.value) && after.onus == db.onus
                        && after.logs == db.logs + [LogEntry("error", "OLT " + db.olts[OltAt(db.olts, b.oltId).value].name,
                                                             "Erro ao atualizar dados da ONU " + b.name + ": " + fault.value)])
                  && (fault.None? ==>
                        |after.onus| == |db.onus|
                        && (forall j :: 0 <= j < |db.onus| && j != k ==> after.onus[j] == db.onus[j])
                        && a.id == b.id && a.serial == b.serial && a.name == b.name && a.port == b.port
                        && a.status == (if st.error.None? then st.value.value else b.status)
                        && a.signal == (if sig.SignalValue? then Some(sig.dbm) else b.signal)
                        && (outcome.OnuRefreshed? ==> a.lastSeen == Some(now) && after.logs == db.logs)
                        && (outcome.OnuRefreshFailed? <==> sig.SignalRaises?)
                        && (outcome.OnuRefreshFailed? ==> a.lastSeen == b.lastSeen && |after.logs| == |db.logs| + 1)))
  {
  }
}
