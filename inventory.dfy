/**
 * The inventory database (app/models/models.py): OLT, ONU and log rows.
 *
 * Rows are kept in insertion order, which is primary-key order, so `query...first()`
 * is the first matching row. Every id is below the next id to be handed out, and ids
 * increase along each table.
 */
module Inventory {
  import opened Wrappers

  /** An OLT row; None is a NULL column. Times are instants supplied by the caller. */
  datatype Olt = Olt(
    id: nat, name: string, ip: string, model: Option<string>, vendor: Option<string>,
    community: string, version: Option<string>, snmpPort: int, status: string,
    lastCheck: Option<int>, createdAt: int)

  /** An ONU row; signal_strength is in dBm. */
  datatype Onu = Onu(
    id: nat, serial: string, name: string, oltId: int, port: string,
    status: string, signal: Option<real>, lastSeen: Option<int>, createdAt: int)

  datatype LogEntry = LogEntry(level: string, source: string, message: string)

  /** The committed contents of the three tables and the next primary key of each row table. */
  datatype Db = Db(olts: seq<Olt>, onus: seq<Onu>, logs: seq<LogEntry>, nextOltId: nat, nextOnuId: nat)

  predicate OltIdsValid(olts: seq<Olt>, next: nat) {
    (forall i :: 0 <= i < |olts| ==> olts[i].id < next)
    && (forall i, j :: 0 <= i < j < |olts| ==> olts[i].id < olts[j].id)
  }

  predicate OnuIdsValid(onus: seq<Onu>, next: nat) {
    (forall i :: 0 <= i < |onus| ==> onus[i].id < next)
    && (forall i, j :: 0 <= i < j < |onus| ==> onus[i].id < onus[j].id)
  }

  /** Primary keys: distinct, increasing in insertion order, below the next key. */
  predicate Valid(db: Db) {
    OltIdsValid(db.olts, db.nextOltId) && OnuIdsValid(db.onus, db.nextOnuId)
  }

  /** `OLT.query.get(id)`: the position of the OLT with that id. */
  function OltAt(olts: seq<Olt>, id: int): (r: Option<nat>)
    ensures r.Some? ==> r.value < |olts| && olts[r.value].id == id
    ensures r.None? ==> forall j :: 0 <= j < |olts| ==> olts[j].id != id
    decreases |olts|
  {
    if olts == [] then None
    else if olts[0].id == id then Some(0)
    else match OltAt(olts[1..], id)
      case None => None
      case Some(k) => Some(k + 1)
  }

  /** `OLT.query.filter_by(ip_address=ip).first()` */
  function OltWithIp(olts: seq<Olt>, ip: string): (r: Option<nat>)
    ensures r.Some? ==> r.value < |olts| && olts[r.value].ip == ip
    ensures r.None? ==> forall j :: 0 <= j < |olts| ==> olts[j].ip != ip
    decreases |olts|
  {
    if olts == [] then None
    else if olts[0].ip == ip then Some(0)
    else match OltWithIp(olts[1..], ip)
      case None => None
      case Some(k) => Some(k + 1)
  }

  /** `ONU.query.get(id)` */
  function OnuAt(onus: seq<Onu>, id: int): (r: Option<nat>)
    ensures r.Some? ==> r.value < |onus| && onus[r.value].id == id
    ensures r.None? ==> forall j :: 0 <= j < |onus| ==> onus[j].id != id
    decreases |onus|
  {
    if onus == [] then None
    else if onus[0].id == id then Some(0)
    else match OnuAt(onus[1..], id)
      case None => None
      case Some(k) => Some(k + 1)
  }

  /** `ONU.query.filter_by(serial_number=serial).first()` */
  function OnuWithSerial(onus: seq<Onu>, serial: string): (r: Option<nat>)
    ensures r.Some? ==> r.value < |onus| && onus[r.value].serial == serial
    ensures r.None? ==> forall j :: 0 <= j < |onus| ==> onus[j].serial != serial
    decreases |onus|
  {
    if onus == [] then None
    else if onus[0].serial == serial then Some(0)
    else match OnuWithSerial(onus[1..], serial)
      case None => None
      case Some(k) => Some(k + 1)
  }

  /** `ONU.query.filter_by(serial_number=serial, olt_id=oltId).first()`: the first such row. */
  function OnuOfOlt(onus: seq<Onu>, serial: string, oltId: int): (r: Option<nat>)
    ensures r.Some? ==> r.value < |onus| && onus[r.value].serial == serial && onus[r.value].oltId == oltId
    ensures r.Some? ==> forall j :: 0 <= j < r.value ==> !(onus[j].serial == serial && onus[j].oltId == oltId)
    ensures r.None? ==> forall j :: 0 <= j < |onus| ==> !(onus[j].serial == serial && onus[j].oltId == oltId)
    decreases |onus|
  {
    if onus == [] then None
    else if onus[0].serial == serial && onus[0].oltId == oltId then Some(0)
    else match OnuOfOlt(onus[1..], serial, oltId)
      case None => None
      case Some(k) => Some(k + 1)
  }

  /** The ONUs of one OLT, in table order (`ONU.query.filter_by(olt_id=id)`). */
  function OnusOf(onus: seq<Onu>, oltId: int): (r: seq<Onu>)
    ensures |r| <= |onus|
    ensures forall o :: o in r <==> o in onus && o.oltId == oltId
    decreases |onus|
  {
    if onus == [] then []
    else
      var rest := OnusOf(onus[..|onus| - 1], oltId);
      var last := onus[|onus| - 1];
      assert onus == onus[..|onus| - 1] + [last];
      if last.oltId == oltId then rest + [last] else rest
  }

  /** The ONUs of every other OLT, in table order (what the cascade delete keeps). */
  function OnusNotOf(onus: seq<Onu>, oltId: int): (r: seq<Onu>)
    ensures |r| <= |onus|
    ensures forall o :: o in r <==> o in onus && o.oltId != oltId
    decreases |onus|
  {
    if onus == [] then []
    else
      var rest := OnusNotOf(onus[..|onus| - 1], oltId);
      var last := onus[|onus| - 1];
      assert onus == onus[..|onus| - 1] + [last];
      if last.oltId != oltId then rest + [last] else rest
  }

  /** Keeping a subsequence of the rows keeps the keys valid. */
  lemma {:induction false} OnusNotOfValid(onus: seq<Onu>, oltId: int, next: nat)
    requires OnuIdsValid(onus, next)
    ensures OnuIdsValid(OnusNotOf(onus, oltId), next)
    decreases |onus|
  {
    if onus != [] {
      var init := onus[..|onus| - 1];
      assert OnuIdsValid(init, next);
      OnusNotOfValid(init, oltId, next);
      var rest := OnusNotOf(init, oltId);
      var last := onus[|onus| - 1];
      forall x | x in rest
        ensures x.id < last.id
      {
        var j :| 0 <= j < |init| && init[j] == x;
        assert onus[j] == x;
      }
      if last.oltId != oltId {
        var r := rest + [last];
        forall i, j | 0 <= i < j < |r|
          ensures r[i].id < r[j].id
        {
          if j == |rest| {
            assert r[i] in rest;
          }
        }
      }
    }
  }

  /** The row sequence without position k. */
  function RemoveOlt(olts: seq<Olt>, k: nat): (r: seq<Olt>)
    requires k < |olts|
    ensures |r| == |olts| - 1
    ensures forall j :: 0 <= j < k ==> r[j] == olts[j]
    ensures forall j :: k <= j < |r| ==> r[j] == olts[j + 1]
  {
    olts[..k] + olts[k + 1..]
  }

  function RemoveOnu(onus: seq<Onu>, k: nat): (r: seq<Onu>)
    requires k < |onus|
    ensures |r| == |onus| - 1
    ensures forall j :: 0 <= j < k ==> r[j] == onus[j]
    ensures forall j :: k <= j < |r| ==> r[j] == onus[j + 1]
  {
    onus[..k] + onus[k + 1..]
  }

  /** The database session: the three tables the routes change in place. */
  class Store {
    var olts: seq<Olt>
    var onus: seq<Onu>
    var logs: seq<LogEntry>
    var nextOltId: nat
    var nextOnuId: nat

    function State(): Db
      reads this
    {
      Db(olts, onus, logs, nextOltId, nextOnuId)
    }

    /** An empty database; the first key of each table is 1. */
    constructor ()
      ensures State() == Db([], [], [], 1, 1)
      ensures Valid(State())
    {
      olts, onus, logs, nextOltId, nextOnuId := [], [], [], 1, 1;
    }

    /** `db.session.add(LogEntry(...))` */
    method Log(level: string, source: string, message: string)
      modifies this
      ensures State() == old(State()).(logs := old(logs) + [LogEntry(level, source, message)])
    {
      logs := logs + [LogEntry(level, source, message)];
    }
  }
}
