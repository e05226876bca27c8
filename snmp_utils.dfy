/**
 * Collection logic of app/snmp_utils.py after the SNMP replies have arrived: the
 * ifIndex→name map, the entity-index search, the OLT summary and the ONU record
 * assembly.
 *
 * A walk result is the sequence of (oid, value) pairs in the order the reply dict
 * holds them; a failed walk is None. A GET result is a map from OID to printed
 * value; a failed GET is None. Environment variables are strings, "" standing for
 * an unset or empty variable (both are falsy in the source).
 */
module SnmpUtils {
  import opened Wrappers
  import opened PyText
  import opened SnmpDecode

  const OidSysDescr: string := "1.3.6.1.2.1.1.1.0"
  const OidSysUptime: string := "1.3.6.1.2.1.1.3.0"

  const OidEntPhysicalTable: string := "1.3.6.1.2.1.47.1.1.1.1"
  const OidEntPhysicalDescr: string := OidEntPhysicalTable + ".2"
  const OidEntPhysicalClass: string := OidEntPhysicalTable + ".5"
  const OidEntPhysicalModel: string := OidEntPhysicalTable + ".13"
  const OidHwEntityStateTable: string := "1.3.6.1.4.1.2011.5.25.31.1.1.1"
  const OidHwEntityTemp: string := OidHwEntityStateTable + ".1.5"
  const OidHwEntitySwRev: string := OidHwEntityStateTable + ".1.7"

  const OidIfTable: string := "1.3.6.1.2.1.2.2.1"
  const OidIfDescr: string := OidIfTable + ".2"

  const OidHwGonuAuthTable: string := "1.3.6.1.4.1.2011.5.104.1.4.1.1"
  const OidHwGonuSerialNumber: string := OidHwGonuAuthTable + ".1.1"
  const OidHwGonuLoid: string := OidHwGonuAuthTable + ".1.4"
  const OidHwGonuStatusTable: string := "1.3.6.1.4.1.2011.5.104.1.1.1.1"
  const OidHwGonuLinkStatus: string := OidHwGonuStatusTable + ".1.1"
  const OidHwGonuRegStatus: string := OidHwGonuStatusTable + ".1.2"
  const OidHwGonuRxPower: string := OidHwGonuStatusTable + ".1.9"
  const OidHwGonuTxPower: string := OidHwGonuStatusTable + ".1.8"

  const ConfigMissing: string := "Configuração SNMP ausente."

  type Walk = seq<(string, string)>
  type GetResult = map<string, string>

  /** `if data:` on a walk result: it arrived and is not empty. */
  predicate WalkTruthy(w: Option<Walk>) { w.Some? && |w.value| > 0 }

  /** `if data:` on a GET result. */
  predicate GetTruthy(g: Option<GetResult>) { g.Some? && |g.value| > 0 }

  function Lookup(m: map<string, string>, k: string, default: string): string {
    if k in m then m[k] else default
  }

  function Last(parts: seq<string>): string
    requires |parts| > 0
  {
    parts[|parts| - 1]
  }

  // ---------------------------------------------------------------------------
  // get_interface_map
  // ---------------------------------------------------------------------------

  /** The ifIndex an ifDescr row stands for: its last OID component, when it is an integer. */
  function IfDescrIndex(oid: string): Option<int> {
    if StartsWith(oid, OidIfDescr + ".") then ParseInt(Last(Split(oid, '.'))) else None
  }

  /** Each walked row with the ifIndex it stands for, if any. */
  function IfRows(w: Walk): (rows: seq<(Option<int>, string)>)
    ensures |rows| == |w|
    ensures forall j :: 0 <= j < |w| ==> rows[j] == (IfDescrIndex(w[j].0), w[j].1)
  {
    seq(|w|, j requires 0 <= j < |w| => (IfDescrIndex(w[j].0), w[j].1))
  }

  /** The map a sequence of keyed rows builds, a later row for the same key winning. */
  function LastWins(rows: seq<(Option<int>, string)>): map<int, string>
    decreases |rows|
  {
    if rows == [] then map[]
    else
      var m := LastWins(rows[..|rows| - 1]);
      var (key, value) := rows[|rows| - 1];
      if key.Some? then m[key.value := value] else m
  }

  function InterfaceMap(ifData: Option<Walk>): map<int, string> {
    if ifData.Some? then LastWins(IfRows(ifData.value)) else map[]
  }

  /** get_interface_map over the reply of its ifDescr walk. */
  method GetInterfaceMap(ifData: Option<Walk>) returns (ifMap: map<int, string>)
    ensures ifMap == InterfaceMap(ifData)
  {
    ifMap := map[];
    if WalkTruthy(ifData) {
      var w := ifData.value;
      ghost var rows := IfRows(w);
      for i := 0 to |w|
        invariant ifMap == LastWins(rows[..i])
      {
        assert rows[..i + 1][..i] == rows[..i];
        var (oid, descr) := w[i];
        var idx := IfDescrIndex(oid);
        if idx.Some? {
          ifMap := ifMap[idx.value := descr];
        }
      }
      assert rows[..|w|] == rows;
    }
  }

  /** Exactly the keys some row carries are in the map, each with the value of its last row. */
  lemma {:induction false} LastWinsExact(rows: seq<(Option<int>, string)>, i: int)
    ensures i in LastWins(rows) <==> exists j :: 0 <= j < |rows| && rows[j].0 == Some(i)
    ensures i in LastWins(rows) ==>
              exists j :: 0 <= j < |rows| && rows[j].0 == Some(i) && LastWins(rows)[i] == rows[j].1
                && forall k :: j < k < |rows| ==> rows[k].0 != Some(i)
    decreases |rows|
  {
    if rows != [] {
      var p := rows[..|rows| - 1];
      LastWinsExact(p, i);
      assert forall j :: 0 <= j < |p| ==> p[j] == rows[j];
      if rows[|rows| - 1].0 == Some(i) {
        assert LastWins(rows)[i] == rows[|rows| - 1].1;
      } else {
        if i in LastWins(rows) {
          var j :| 0 <= j < |p| && p[j].0 == Some(i) && LastWins(p)[i] == p[j].1
                   && forall k :: j < k < |p| ==> p[k].0 != Some(i);
          assert forall k :: j < k < |rows| ==> rows[k].0 != Some(i) by {
            forall k | j < k < |rows| ensures rows[k].0 != Some(i) {
              if k < |p| { assert rows[k] == p[k]; }
            }
          }
        }
        if exists j :: 0 <= j < |rows| && rows[j].0 == Some(i) {
          var j :| 0 <= j < |rows| && rows[j].0 == Some(i);
          assert j < |p| && p[j].0 == Some(i);
        }
      }
    }
  }

  /**
   * Exactly the ifIndexes of well-formed ifDescr rows are keys, and each maps to the
   * value of the last such row: other rows are skipped, never fatal.
   */
  lemma InterfaceMapExact(w: Walk, i: int)
    ensures i in InterfaceMap(Some(w)) <==> exists j :: 0 <= j < |w| && IfDescrIndex(w[j].0) == Some(i)
    ensures i in InterfaceMap(Some(w)) ==>
              exists j :: 0 <= j < |w| && IfDescrIndex(w[j].0) == Some(i) && InterfaceMap(Some(w))[i] == w[j].1
                && forall k :: j < k < |w| ==> IfDescrIndex(w[k].0) != Some(i)
  {
    LastWinsExact(IfRows(w), i);
  }

  // ---------------------------------------------------------------------------
  // find_entity_index
  // ---------------------------------------------------------------------------

  /** The entPhysicalIndex of an entity row: its last OID component as an integer. */
  function EntityIndex(oid: string): Option<int> {
    ParseInt(Last(Split(oid, '.')))
  }

  /** The column OID of an entity row: every component but the last. */
  function ColumnOid(oid: string): string {
    var parts := Split(oid, '.');
    Join(".", parts[..|parts| - 1])
  }

  /** One walked entity row: its index, its column OID and its value. */
  datatype EntityCell = EntityCell(index: int, column: string, value: string)

  function EntityCellOf(oid: string, value: string): Option<EntityCell> {
    match EntityIndex(oid)
    case Some(i) => Some(EntityCell(i, ColumnOid(oid), value))
    case None => None
  }

  function EntityCells(w: Walk): (cells: seq<Option<EntityCell>>)
    ensures |cells| == |w|
    ensures forall j :: 0 <= j < |w| ==> cells[j] == EntityCellOf(w[j].0, w[j].1)
  {
    seq(|w|, j requires 0 <= j < |w| => EntityCellOf(w[j].0, w[j].1))
  }

  /** Rows grouped by entity index; `order` lists the indexes in order of first appearance. */
  datatype Grouping = Grouping(order: seq<int>, rows: map<int, map<string, string>>)

  predicate Distinct(s: seq<int>) {
    forall a, b :: 0 <= a < b < |s| ==> s[a] != s[b]
  }

  /** The step of the grouping loop for one cell. */
  function AddEntityCell(g: Grouping, cell: Option<EntityCell>): Grouping {
    match cell
    case None => g
    case Some(EntityCell(i, column, value)) =>
      var row := if i in g.rows then g.rows[i] else map[];
      Grouping(if i in g.rows then g.order else g.order + [i], g.rows[i := row[column := value]])
  }

  function GroupRows(cells: seq<Option<EntityCell>>): (g: Grouping)
    ensures forall i :: i in g.rows <==> i in g.order
    ensures Distinct(g.order)
    decreases |cells|
  {
    if cells == [] then Grouping([], map[])
    else AddEntityCell(GroupRows(cells[..|cells| - 1]), cells[|cells| - 1])
  }

  /**
   * The match test of one entity: its class equals the desired class, or a description
   * part is given (non-empty) and occurs in the description, ignoring ASCII case.
   * Missing columns read as "".
   */
  predicate EntityMatches(row: map<string, string>, desiredClass: string, descrPart: string) {
    Lookup(row, OidEntPhysicalClass, "") == desiredClass
    || (descrPart != "" && Contains(Lower(Lookup(row, OidEntPhysicalDescr, "")), Lower(descrPart)))
  }

  /** The first index in `order` whose row matches. */
  function FirstMatch(order: seq<int>, rows: map<int, map<string, string>>, desiredClass: string, descrPart: string)
    : (r: Option<int>)
    requires forall k :: 0 <= k < |order| ==> order[k] in rows
    ensures r.Some? ==>
              exists k :: 0 <= k < |order| && order[k] == r.value
                && EntityMatches(rows[order[k]], desiredClass, descrPart)
                && forall k' :: 0 <= k' < k ==> !EntityMatches(rows[order[k']], desiredClass, descrPart)
    ensures r.None? ==> forall k :: 0 <= k < |order| ==> !EntityMatches(rows[order[k]], desiredClass, descrPart)
    decreases |order|
  {
    if order == [] then None
    else if EntityMatches(rows[order[0]], desiredClass, descrPart) then Some(order[0])
    else
      var r := FirstMatch(order[1..], rows, desiredClass, descrPart);
      assert forall k :: 1 <= k < |order| ==> order[k] == order[1..][k - 1];
      r
  }

  /** find_entity_index over the reply of its walk; "" stands for a missing description part. */
  function EntitySearch(entityData: Option<Walk>, desiredClass: string, descrPart: string): Option<int> {
    if !WalkTruthy(entityData) then None
    else
      var g := GroupRows(EntityCells(entityData.value));
      FirstMatch(g.order, g.rows, desiredClass, descrPart)
  }

  /** The first loop of find_entity_index: group the walk's rows by entity index. */
  method GroupEntities(w: Walk) returns (order: seq<int>, rows: map<int, map<string, string>>)
    ensures Grouping(order, rows) == GroupRows(EntityCells(w))
  {
    ghost var cells := EntityCells(w);
    order, rows := [], map[];
    for i := 0 to |w|
      invariant Grouping(order, rows) == GroupRows(cells[..i])
    {
      GroupRowsStep(cells, i);
      var (oid, value) := w[i];
      var cell := EntityCellOf(oid, value);
      if cell.Some? {
        var index := cell.value.index;
        var row := if index in rows then rows[index] else map[];
        if index !in rows {
          order := order + [index];
        }
        rows := rows[index := row[cell.value.column := cell.value.value]];
      }
    }
    assert cells[..|w|] == cells;
  }

  /** The second loop of find_entity_index: the first entity, in walk order, that matches. */
  method SearchGroups(order: seq<int>, rows: map<int, map<string, string>>, desiredClass: string, descrPart: string)
    returns (r: Option<int>)
    requires forall j :: 0 <= j < |order| ==> order[j] in rows
    ensures r == FirstMatch(order, rows, desiredClass, descrPart)
  {
    for k := 0 to |order|
      invariant forall k' :: 0 <= k' < k ==> !EntityMatches(rows[order[k']], desiredClass, descrPart)
    {
      if EntityMatches(rows[order[k]], desiredClass, descrPart) {
        FirstMatchUnique(order, rows, desiredClass, descrPart, k);
        return Some(order[k]);
      }
    }
    r := None;
  }

  /** find_entity_index: group the walked rows by index, then return the first match. */
  method FindEntityIndex(entityData: Option<Walk>, desiredClass: string, descrPart: string)
    returns (r: Option<int>)
    ensures r == EntitySearch(entityData, desiredClass, descrPart)
  {
    if !WalkTruthy(entityData) {
      return None;
    }
    var order, rows := GroupEntities(entityData.value);
    r := SearchGroups(order, rows, desiredClass, descrPart);
  }

  lemma GroupRowsStep(cells: seq<Option<EntityCell>>, i: int)
    requires 0 <= i < |cells|
    ensures GroupRows(cells[..i + 1]) == AddEntityCell(GroupRows(cells[..i]), cells[i])
  {
    assert cells[..i + 1][..i] == cells[..i];
  }

  lemma FirstMatchUnique(order: seq<int>, rows: map<int, map<string, string>>, desiredClass: string, descrPart: string, k: int)
    requires forall j :: 0 <= j < |order| ==> order[j] in rows
    requires 0 <= k < |order| && EntityMatches(rows[order[k]], desiredClass, descrPart)
    requires forall k' :: 0 <= k' < k ==> !EntityMatches(rows[order[k']], desiredClass, descrPart)
    ensures FirstMatch(order, rows, desiredClass, descrPart) == Some(order[k])
  {
    var r := FirstMatch(order, rows, desiredClass, descrPart);
    if r.Some? {
      var j :| 0 <= j < |order| && order[j] == r.value
                && EntityMatches(rows[order[j]], desiredClass, descrPart)
                && forall k' :: 0 <= k' < j ==> !EntityMatches(rows[order[k']], desiredClass, descrPart);
      assert j == k;
    }
  }

  /** A group exists for exactly the indexes that some well-formed row carries. */
  lemma {:induction false} GroupRowsIndexes(cells: seq<Option<EntityCell>>, i: int)
    ensures i in GroupRows(cells).rows <==> exists j :: 0 <= j < |cells| && cells[j].Some? && cells[j].value.index == i
    decreases |cells|
  {
    if cells != [] {
      var p := cells[..|cells| - 1];
      GroupRowsIndexes(p, i);
      assert forall j :: 0 <= j < |p| ==> p[j] == cells[j];
      var last := cells[|cells| - 1];
      if !(last.Some? && last.value.index == i) {
        if exists j :: 0 <= j < |cells| && cells[j].Some? && cells[j].value.index == i {
          var j :| 0 <= j < |cells| && cells[j].Some? && cells[j].value.index == i;
          assert j < |p|;
        }
      }
    }
  }

  /** An entity is a candidate exactly when some row of the walk carries its index. */
  lemma EntityGroupsOfWalk(w: Walk, i: int)
    ensures i in GroupRows(EntityCells(w)).rows <==> exists j :: 0 <= j < |w| && EntityIndex(w[j].0) == Some(i)
  {
    GroupRowsIndexes(EntityCells(w), i);
  }

  /** A failed or empty walk finds nothing. */
  lemma EntitySearchFailedWalk(entityData: Option<Walk>, desiredClass: string, descrPart: string)
    requires !WalkTruthy(entityData)
    ensures EntitySearch(entityData, desiredClass, descrPart) == None
  {
  }

  /** With no description part, only the class can make a group match. */
  lemma EntityMatchWithoutPart(row: map<string, string>, desiredClass: string)
    ensures EntityMatches(row, desiredClass, "") <==> Lookup(row, OidEntPhysicalClass, "") == desiredClass
  {
  }

  // ---------------------------------------------------------------------------
  // get_olt_info
  // ---------------------------------------------------------------------------

  datatype OltInfo =
    | OltInfoError(error: string)
    | OltInfo(ip: string, sysDescr: string, uptime: string, uptimeTicks: int,
              model: string, swVersion: string, temperature: string)

  const FetchFailed: string := "Erro ao buscar"
  const IndexNotFound: string := "Índice não encontrado"

  /** `if entity_index:` — found, and not 0. */
  predicate IndexTruthy(idx: Option<int>) { idx.Some? && idx.value != 0 }

  /**
   * The entity index used for the details: chassis, else a container whose description
   * mentions MPLA, else a module whose description mentions Control; each later walk is
   * consulted only when the earlier result is falsy.
   */
  function ChosenIndex(chassisWalk: Option<Walk>, mplaWalk: Option<Walk>, controlWalk: Option<Walk>): Option<int> {
    var a := EntitySearch(chassisWalk, "chassis", "");
    if IndexTruthy(a) then a
    else
      var b := EntitySearch(mplaWalk, "container", "MPLA");
      if IndexTruthy(b) then b
      else EntitySearch(controlWalk, "module", "Control")
  }

  /** sysDescr, the uptime text and the tick count from the basic GET. */
  function BasicFields(basic: Option<GetResult>): (string, string, int) {
    if !GetTruthy(basic) then (FetchFailed, FetchFailed, 0)
    else
      var descr := Lookup(basic.value, OidSysDescr, "N/A");
      var ticks := if OidSysUptime in basic.value then ParseInt(basic.value[OidSysUptime]) else Some(0);
      match ticks
      case Some(t) => (descr, FormatUptime(t), t)
      case None => (descr, "Erro na conversão", 0)
  }

  function DetailOid(column: string, idx: int): string {
    column + "." + IntToString(idx)
  }

  /** model, sw_version and temperature from the detail GET for the chosen index. */
  function DetailFields(idx: Option<int>, detail: Option<GetResult>): (string, string, string) {
    if !IndexTruthy(idx) then (IndexNotFound, IndexNotFound, IndexNotFound)
    else if !GetTruthy(detail) then (FetchFailed, FetchFailed, FetchFailed)
    else
      var d := detail.value;
      (Lookup(d, DetailOid(OidEntPhysicalModel, idx.value), "N/A"),
       Lookup(d, DetailOid(OidHwEntitySwRev, idx.value), "N/A"),
       FormatTemperature(Lookup(d, DetailOid(OidHwEntityTemp, idx.value), "N/A")))
  }

  /** The first of `parts` that starts with `prefix`. */
  function FirstWithPrefix(parts: seq<string>, prefix: string): (r: Option<string>)
    ensures r.Some? ==> StartsWith(r.value, prefix)
                        && exists k :: 0 <= k < |parts| && parts[k] == r.value
                             && forall k' :: 0 <= k' < k ==> !StartsWith(parts[k'], prefix)
    ensures r.None? ==> forall k :: 0 <= k < |parts| ==> !StartsWith(parts[k], prefix)
    decreases |parts|
  {
    if parts == [] then None
    else if StartsWith(parts[0], prefix) then Some(parts[0])
    else
      var r := FirstWithPrefix(parts[1..], prefix);
      assert forall k :: 1 <= k < |parts| ==> parts[k] == parts[1..][k - 1];
      r
  }

  /**
   * The sysDescr override of one field: when sysDescr mentions `prefix` and the field
   * does not start with it, the first space-separated word of sysDescr starting with
   * `prefix` replaces the field (if there is one).
   */
  function DescrOverride(sysDescr: string, current: string, prefix: string): string {
    if Contains(sysDescr, prefix) && !StartsWith(current, prefix) then
      FirstWithPrefix(Split(sysDescr, ' '), prefix).GetOr(current)
    else current
  }

  /** The override applies only to a sysDescr that was actually read. */
  predicate DescrUsable(sysDescr: string) {
    sysDescr != "N/A" && sysDescr != FetchFailed
  }

  function OltInfoSpec(oltIp: string, community: string, basic: Option<GetResult>,
                       chassisWalk: Option<Walk>, mplaWalk: Option<Walk>, controlWalk: Option<Walk>,
                       detail: Option<GetResult>): OltInfo
  {
    if oltIp == "" || community == "" then OltInfoError(ConfigMissing)
    else
      var (descr, uptime, ticks) := BasicFields(basic);
      var (model, sw, temp) := DetailFields(ChosenIndex(chassisWalk, mplaWalk, controlWalk), detail);
      if DescrUsable(descr) then
        OltInfo(oltIp, descr, uptime, ticks, DescrOverride(descr, model, "MA5800"), DescrOverride(descr, sw, "V100R"), temp)
      else
        OltInfo(oltIp, descr, uptime, ticks, model, sw, temp)
  }

  /** Step 1 of get_olt_info: sysDescr and the uptime from the basic GET. */
  method ReadBasicInfo(basic: Option<GetResult>) returns (sysDescr: string, uptime: string, ticks: int)
    ensures (sysDescr, uptime, ticks) == BasicFields(basic)
  {
    if GetTruthy(basic) {
      sysDescr := Lookup(basic.value, OidSysDescr, "N/A");
      var parsed := if OidSysUptime in basic.value then ParseInt(basic.value[OidSysUptime]) else Some(0);
      if parsed.Some? {
        ticks := parsed.value;
        uptime := FormatUptime(ticks);
      } else {
        uptime, ticks := "Erro na conversão", 0;
      }
    } else {
      sysDescr, uptime, ticks := FetchFailed, FetchFailed, 0;
    }
  }

  /** Step 2: the entity-index fallback chain, each search run only when the previous one is falsy. */
  method ChooseEntityIndex(chassisWalk: Option<Walk>, mplaWalk: Option<Walk>, controlWalk: Option<Walk>)
    returns (entityIndex: Option<int>)
    ensures entityIndex == ChosenIndex(chassisWalk, mplaWalk, controlWalk)
  {
    entityIndex := FindEntityIndex(chassisWalk, "chassis", "");
    if !IndexTruthy(entityIndex) {
      entityIndex := FindEntityIndex(mplaWalk, "container", "MPLA");
      if !IndexTruthy(entityIndex) {
        entityIndex := FindEntityIndex(controlWalk, "module", "Control");
      }
    }
  }

  /** Step 3: model, software version and temperature for the chosen index. */
  method ReadDetailInfo(entityIndex: Option<int>, detail: Option<GetResult>)
    returns (model: string, swVersion: string, temperature: string)
    ensures (model, swVersion, temperature) == DetailFields(entityIndex, detail)
  {
    if IndexTruthy(entityIndex) {
      var idx := entityIndex.value;
      if GetTruthy(detail) {
        model := Lookup(detail.value, DetailOid(OidEntPhysicalModel, idx), "N/A");
        swVersion := Lookup(detail.value, DetailOid(OidHwEntitySwRev, idx), "N/A");
        temperature := FormatTemperature(Lookup(detail.value, DetailOid(OidHwEntityTemp, idx), "N/A"));
      } else {
        model, swVersion, temperature := FetchFailed, FetchFailed, FetchFailed;
      }
    } else {
      model, swVersion, temperature := IndexNotFound, IndexNotFound, IndexNotFound;
    }
  }

  /** Step 4, for one field: the sysDescr word search and replacement. */
  method OverrideFromDescr(sysDescr: string, current: string, prefix: string) returns (r: string)
    ensures r == DescrOverride(sysDescr, current, prefix)
  {
    r := current;
    if Contains(sysDescr, prefix) && !StartsWith(current, prefix) {
      var parts := Split(sysDescr, ' ');
      for k := 0 to |parts|
        invariant FirstWithPrefix(parts, prefix) == FirstWithPrefix(parts[k..], prefix)
      {
        if StartsWith(parts[k], prefix) {
          return parts[k];
        }
        assert parts[k..][1..] == parts[k + 1..];
      }
    }
  }

  /**
   * get_olt_info over the replies of its GETs and entity walks: the basic GET, the
   * three entity walks of the fallback chain, and the detail GET for the chosen index
   * (consulted only when an index is found).
   */
  method GetOltInfo(oltIp: string, community: string, basic: Option<GetResult>,
                    chassisWalk: Option<Walk>, mplaWalk: Option<Walk>, controlWalk: Option<Walk>,
                    detail: Option<GetResult>) returns (info: OltInfo)
    ensures info == OltInfoSpec(oltIp, community, basic, chassisWalk, mplaWalk, controlWalk, detail)
  {
    if oltIp == "" || community == "" {
      return OltInfoError(ConfigMissing);
    }
    var sysDescr, uptime, ticks := ReadBasicInfo(basic);
    var entityIndex := ChooseEntityIndex(chassisWalk, mplaWalk, controlWalk);
    var model, swVersion, temperature := ReadDetailInfo(entityIndex, detail);
    if DescrUsable(sysDescr) {
      model := OverrideFromDescr(sysDescr, model, "MA5800");
      swVersion := OverrideFromDescr(sysDescr, swVersion, "V100R");
    }
    info := OltInfo(oltIp, sysDescr, uptime, ticks, model, swVersion, temperature);
  }
  /** Without an IP or community nothing is queried and the configuration error is returned. */
  lemma OltInfoConfigGuard(oltIp: string, community: string, basic: Option<GetResult>,
                           c: Option<Walk>, m: Option<Walk>, k: Option<Walk>, detail: Option<GetResult>)
    ensures OltInfoSpec(oltIp, community, basic, c, m, k, detail).OltInfoError?
            <==> (oltIp == "" || community == "")
    ensures oltIp == "" || community == "" ==>
              OltInfoSpec(oltIp, community, basic, c, m, k, detail) == OltInfoError(ConfigMissing)
  {
  }

  /**
   * An index of 0, like a missing one, counts as not found: the detail GET is not
   * consulted, the temperature reads 'Índice não encontrado', and model and version do
   * too unless the sysDescr override supplies a word with the expected prefix.
   */
  lemma UnfoundIndexFields(oltIp: string, community: string, basic: Option<GetResult>,
                           c: Option<Walk>, m: Option<Walk>, k: Option<Walk>,
                           detail1: Option<GetResult>, detail2: Option<GetResult>)
    requires oltIp != "" && community != ""
    requires !IndexTruthy(ChosenIndex(c, m, k))
    ensures OltInfoSpec(oltIp, community, basic, c, m, k, detail1)
            == OltInfoSpec(oltIp, community, basic, c, m, k, detail2)
    ensures var info := OltInfoSpec(oltIp, community, basic, c, m, k, detail1);
            && info.temperature == IndexNotFound
            && (info.model == IndexNotFound || StartsWith(info.model, "MA5800"))
            && (info.swVersion == IndexNotFound || StartsWith(info.swVersion, "V100R"))
  {
    var descr := BasicFields(basic).0;
    OverrideOutcome(descr, IndexNotFound, "MA5800");
    OverrideOutcome(descr, IndexNotFound, "V100R");
  }

  /**
   * `i` is the first entity, in walk order, of the walk `w`'s groups that matches the
   * class or description part.
   */
  predicate FirstMatchingIn(w: Option<Walk>, desiredClass: string, descrPart: string, i: int) {
    WalkTruthy(w)
    && var g := GroupRows(EntityCells(w.value));
       exists k :: 0 <= k < |g.order| && g.order[k] == i && i in g.rows
         && EntityMatches(g.rows[i], desiredClass, descrPart)
         && forall k' :: 0 <= k' < k ==> g.order[k'] in g.rows && !EntityMatches(g.rows[g.order[k']], desiredClass, descrPart)
  }

  /** A search that finds an index found the first matching entity of its walk. */
  lemma SearchFindsFirst(w: Option<Walk>, desiredClass: string, descrPart: string)
    ensures var r := EntitySearch(w, desiredClass, descrPart);
            r.Some? ==> FirstMatchingIn(w, desiredClass, descrPart, r.value)
  {
    var r := EntitySearch(w, desiredClass, descrPart);
    if r.Some? {
      var g := GroupRows(EntityCells(w.value));
      var k :| 0 <= k < |g.order| && g.order[k] == r.value
                && EntityMatches(g.rows[g.order[k]], desiredClass, descrPart)
                && forall k' :: 0 <= k' < k ==> !EntityMatches(g.rows[g.order[k']], desiredClass, descrPart);
      assert g.order[k] in g.rows;
    }
  }

  /**
   * The whole fallback chain: a found, non-zero index is the first chassis of the
   * chassis walk; or, only when that search was falsy, the first container mentioning
   * MPLA; or, only when both were falsy, the first module mentioning Control. A falsy
   * result means all three searches were falsy.
   */
  lemma EntityIndexChain(c: Option<Walk>, m: Option<Walk>, k: Option<Walk>)
    ensures var r := ChosenIndex(c, m, k);
            IndexTruthy(r) ==>
              FirstMatchingIn(c, "chassis", "", r.value)
              || (!IndexTruthy(EntitySearch(c, "chassis", "")) && FirstMatchingIn(m, "container", "MPLA", r.value))
              || (!IndexTruthy(EntitySearch(c, "chassis", "")) && !IndexTruthy(EntitySearch(m, "container", "MPLA"))
                  && FirstMatchingIn(k, "module", "Control", r.value))
    ensures !IndexTruthy(ChosenIndex(c, m, k)) ==>
              !IndexTruthy(EntitySearch(c, "chassis", "")) && !IndexTruthy(EntitySearch(m, "container", "MPLA"))
              && !IndexTruthy(EntitySearch(k, "module", "Control"))
  {
    SearchFindsFirst(c, "chassis", "");
    SearchFindsFirst(m, "container", "MPLA");
    SearchFindsFirst(k, "module", "Control");
  }

  /**
   * With a found index and a failed detail GET, the temperature reads 'Erro ao buscar',
   * as do model and version unless the sysDescr override supplies a word with the
   * expected prefix; the basic fields do not depend on the detail GET.
   */
  lemma DetailFetchFailedFields(oltIp: string, community: string, basic: Option<GetResult>,
                                c: Option<Walk>, m: Option<Walk>, k: Option<Walk>, detail: Option<GetResult>)
    requires oltIp != "" && community != ""
    requires IndexTruthy(ChosenIndex(c, m, k)) && !GetTruthy(detail)
    ensures var info := OltInfoSpec(oltIp, community, basic, c, m, k, detail);
            && info.temperature == FetchFailed
            && (info.model == FetchFailed || StartsWith(info.model, "MA5800"))
            && (info.swVersion == FetchFailed || StartsWith(info.swVersion, "V100R"))
            && (info.sysDescr, info.uptime, info.uptimeTicks) == BasicFields(basic)
  {
    var descr := BasicFields(basic).0;
    OverrideOutcome(descr, FetchFailed, "MA5800");
    OverrideOutcome(descr, FetchFailed, "V100R");
  }

  /**
   * A failed basic GET reads 'Erro ao buscar' for sysDescr and uptime with 0 ticks, and
   * then no override applies: model and version are the detail fields as read.
   */
  lemma BasicFetchFailedFields(oltIp: string, community: string, basic: Option<GetResult>,
                               c: Option<Walk>, m: Option<Walk>, k: Option<Walk>, detail: Option<GetResult>)
    requires oltIp != "" && community != "" && !GetTruthy(basic)
    ensures var info := OltInfoSpec(oltIp, community, basic, c, m, k, detail);
            && info.sysDescr == FetchFailed && info.uptime == FetchFailed && info.uptimeTicks == 0
            && (info.model, info.swVersion, info.temperature) == DetailFields(ChosenIndex(c, m, k), detail)
  {
  }

  /** The fallback chain: the chassis search wins when it finds a non-zero index. */
  lemma ChassisFirst(c: Option<Walk>, m: Option<Walk>, k: Option<Walk>)
    requires IndexTruthy(EntitySearch(c, "chassis", ""))
    ensures ChosenIndex(c, m, k) == EntitySearch(c, "chassis", "")
  {
  }

  /**
   * Every non-error uptime is the rendering of the reported tick count, or one of the
   * two failure texts with a count of 0.
   */
  lemma OltUptimeShape(oltIp: string, community: string, basic: Option<GetResult>,
                       c: Option<Walk>, m: Option<Walk>, k: Option<Walk>, detail: Option<GetResult>)
    requires oltIp != "" && community != ""
    ensures var info := OltInfoSpec(oltIp, community, basic, c, m, k, detail);
            info.uptime == FormatUptime(info.uptimeTicks)
            || ((info.uptime == "Erro na conversão" || info.uptime == FetchFailed) && info.uptimeTicks == 0)
    ensures var info := OltInfoSpec(oltIp, community, basic, c, m, k, detail);
            GetTruthy(basic) && OidSysUptime in basic.value && ParseInt(basic.value[OidSysUptime]).Some?
            ==> info.uptimeTicks == ParseInt(basic.value[OidSysUptime]).value
  {
  }

  /**
   * The override yields either the field unchanged or a word of sysDescr that starts
   * with the prefix; it replaces the field exactly when sysDescr mentions the prefix,
   * the field lacks it, and some word carries it.
   */
  lemma OverrideOutcome(descr: string, current: string, prefix: string)
    ensures var r := DescrOverride(descr, current, prefix);
            r == current || (StartsWith(r, prefix) && r in Split(descr, ' '))
    ensures StartsWith(current, prefix) ==> DescrOverride(descr, current, prefix) == current
  {
    var r := FirstWithPrefix(Split(descr, ' '), prefix);
    if Contains(descr, prefix) && !StartsWith(current, prefix) && r.Some? {
      var k :| 0 <= k < |Split(descr, ' ')| && Split(descr, ' ')[k] == r.value
                && forall k' :: 0 <= k' < k ==> !StartsWith(Split(descr, ' ')[k'], prefix);
    }
  }

  /** Applying the override twice is the same as applying it once. */
  lemma OverrideIdempotent(descr: string, current: string, prefix: string)
    ensures DescrOverride(descr, DescrOverride(descr, current, prefix), prefix) == DescrOverride(descr, current, prefix)
  {
  }

  // ---------------------------------------------------------------------------
  // get_ont_list
  // ---------------------------------------------------------------------------

  /**
   * One assembled ONU. The key of the source's dict, f"{if_index}.{onu_id}", is
   * injective in the pair, so records are keyed by `(ifIndex, onuId)` here.
   */
  datatype OntRecord = OntRecord(
    ifIndex: int, onuId: int, portName: string, serialNumber: string, loid: string,
    linkStatus: LinkStatus, regStatus: RegStatus, rxPower: string, txPower: string, category: Category)

  datatype OntList = OntListError(error: string) | OntList(records: seq<OntRecord>)

  const OntWalkFailed: string := "Falha ao obter dados SNMP das ONUs."

  /** The six walked ONU columns. */
  datatype OntColumn = SerialColumn | LoidColumn | LinkColumn | RegColumn | RxColumn | TxColumn

  function ColumnOidOf(c: OntColumn): string {
    match c
    case SerialColumn => OidHwGonuSerialNumber
    case LoidColumn => OidHwGonuLoid
    case LinkColumn => OidHwGonuLinkStatus
    case RegColumn => OidHwGonuRegStatus
    case RxColumn => OidHwGonuRxPower
    case TxColumn => OidHwGonuTxPower
  }

  /** The column a base OID names, if it is one of the six. */
  function OntColumnOf(base: string): (r: Option<OntColumn>)
    ensures r.Some? ==> ColumnOidOf(r.value) == base
  {
    if base == OidHwGonuSerialNumber then Some(SerialColumn)
    else if base == OidHwGonuLoid then Some(LoidColumn)
    else if base == OidHwGonuLinkStatus then Some(LinkColumn)
    else if base == OidHwGonuRegStatus then Some(RegColumn)
    else if base == OidHwGonuRxPower then Some(RxColumn)
    else if base == OidHwGonuTxPower then Some(TxColumn)
    else None
  }

  /** The decoded effect of one walked value on its record. */
  datatype FieldUpdate =
    | SetSerial(serial: string)
    | SetLoid(loid: string)
    | SetLink(link: LinkStatus)
    | SetReg(reg: RegStatus)
    | SetRx(rx: string)
    | SetTx(tx: string)
    | NoUpdate

  /**
   * Decoding of one walked value by its column. A status value that is not an
   * integer raises in the source and is skipped (NoUpdate), as is a row of another table.
   */
  function FieldUpdateOf(column: Option<OntColumn>, value: string): FieldUpdate {
    match column
    case None => NoUpdate
    case Some(SerialColumn) => SetSerial(DecodeSerial(value))
    case Some(LoidColumn) => SetLoid(value)
    case Some(LinkColumn) =>
      (match ParseInt(value)
       case Some(code) => SetLink(LinkStatusOf(code))
       case None => NoUpdate)
    case Some(RegColumn) =>
      (match ParseInt(value)
       case Some(code) => SetReg(RegStatusOf(code))
       case None => NoUpdate)
    case Some(RxColumn) => SetRx(PowerField(value))
    case Some(TxColumn) => SetTx(PowerField(value))
  }

  /** One walked ONU row: its (ifIndex, onuId) key and its decoded field. */
  datatype OntCell = OntCell(key: (int, int), update: FieldUpdate)

  /**
   * The key and column of a walked OID, when it has at least two components and the
   * last two (onuId, then ifIndex) are integers; the base OID, all the rest, picks the column.
   */
  function OntPlaceOf(oid: string): Option<((int, int), Option<OntColumn>)> {
    var parts := Split(oid, '.');
    if |parts| < 2 then None
    else
      var onu := ParseInt(parts[|parts| - 1]);
      var ifi := ParseInt(parts[|parts| - 2]);
      if onu.Some? && ifi.Some? then Some(((ifi.value, onu.value), OntColumnOf(Join(".", parts[..|parts| - 2]))))
      else None
  }

  /** The cell of a walked row: its place and its value decoded by the column. */
  function OntCellOf(oid: string, value: string): Option<OntCell> {
    match OntPlaceOf(oid)
    case None => None
    case Some((key, column)) => Some(OntCell(key, FieldUpdateOf(column, value)))
  }

  function OntCells(w: Walk): (cells: seq<Option<OntCell>>)
    ensures |cells| == |w|
    ensures forall j :: 0 <= j < |w| ==> cells[j] == OntCellOf(w[j].0, w[j].1)
  {
    seq(|w|, j requires 0 <= j < |w| => OntCellOf(w[j].0, w[j].1))
  }

  function PortName(ifMap: map<int, string>, ifIndex: int): string {
    if ifIndex in ifMap then ifMap[ifIndex] else "ifIndex " + IntToString(ifIndex)
  }

  /** The record created the first time a key is seen. */
  function NewRecord(ifMap: map<int, string>, ifIndex: int, onuId: int): OntRecord {
    OntRecord(ifIndex, onuId, PortName(ifMap, ifIndex), "N/A", "N/A",
              LinkUnknown, RegUnknown, "N/A", "N/A", Unknown)
  }

  /** The effect of one decoded field on its record. */
  function ApplyField(rec: OntRecord, update: FieldUpdate): (r: OntRecord)
    ensures r.ifIndex == rec.ifIndex && r.onuId == rec.onuId && r.portName == rec.portName
  {
    match update
    case SetSerial(x) => rec.(serialNumber := x)
    case SetLoid(x) => rec.(loid := x)
    case SetLink(x) => rec.(linkStatus := x)
    case SetReg(x) => rec.(regStatus := x)
    case SetRx(x) => rec.(rxPower := x)
    case SetTx(x) => rec.(txPower := x)
    case NoUpdate => rec
  }

  /** Records by key; `keys` lists the keys in order of first appearance. */
  datatype OntTable = OntTable(keys: seq<(int, int)>, recs: map<(int, int), OntRecord>)

  predicate DistinctKeys(s: seq<(int, int)>) {
    forall a, b :: 0 <= a < b < |s| ==> s[a] != s[b]
  }

  /** The step of the first loop for one cell. */
  function AddCell(ifMap: map<int, string>, t: OntTable, cell: Option<OntCell>): OntTable {
    match cell
    case None => t
    case Some(OntCell(key, update)) =>
      var rec := if key in t.recs then t.recs[key] else NewRecord(ifMap, key.0, key.1);
      OntTable(if key in t.recs then t.keys else t.keys + [key], t.recs[key := ApplyField(rec, update)])
  }

  /** The dict of the source after its first loop has processed `cells`. */
  function AssembleOnts(ifMap: map<int, string>, cells: seq<Option<OntCell>>): (t: OntTable)
    ensures forall k :: k in t.recs <==> k in t.keys
    ensures DistinctKeys(t.keys)
    ensures forall k :: k in t.recs ==>
              t.recs[k].ifIndex == k.0 && t.recs[k].onuId == k.1 && t.recs[k].portName == PortName(ifMap, k.0)
    decreases |cells|
  {
    if cells == [] then OntTable([], map[])
    else AddCell(ifMap, AssembleOnts(ifMap, cells[..|cells| - 1]), cells[|cells| - 1])
  }

  lemma AssembleStep(ifMap: map<int, string>, cells: seq<Option<OntCell>>, i: int)
    requires 0 <= i < |cells|
    ensures AssembleOnts(ifMap, cells[..i + 1]) == AddCell(ifMap, AssembleOnts(ifMap, cells[..i]), cells[i])
  {
    assert cells[..i + 1][..i] == cells[..i];
  }

  /**
   * The second loop: every record's category from its final fields, through
   * parse_rx_power as the source has it (which never yields a number).
   */
  function WithCategory(r: OntRecord): OntRecord {
    r.(category := Categorize(r.linkStatus, r.regStatus, ParseRxPowerAsWritten(r.rxPower)))
  }

  /** The category the record would get with the intended parse_rx_power. */
  function WithIntendedCategory(r: OntRecord): OntRecord {
    r.(category := Categorize(r.linkStatus, r.regStatus, ParseRxPower(r.rxPower)))
  }

  /** The ONU list as it was meant to be: every record graded by its receive power. */
  function IntendedRecords(records: seq<OntRecord>): (r: seq<OntRecord>)
    ensures |r| == |records|
  {
    seq(|records|, i requires 0 <= i < |records| => WithIntendedCategory(records[i]))
  }

  function CategorizedRecords(t: OntTable): seq<OntRecord>
    requires forall k :: k in t.keys ==> k in t.recs
  {
    seq(|t.keys|, i requires 0 <= i < |t.keys| => WithCategory(t.recs[t.keys[i]]))
  }

  function OntListSpec(oltIp: string, community: string, ifData: Option<Walk>, walkData: Option<Walk>): OntList {
    if oltIp == "" || community == "" then OntListError(ConfigMissing)
    else if !WalkTruthy(walkData) then OntListError(OntWalkFailed)
    else OntList(CategorizedRecords(AssembleOnts(InterfaceMap(ifData), OntCells(walkData.value))))
  }

  /** The first loop of get_ont_list: one record per key, updated row by row. */
  method CollectOnts(ifMap: map<int, string>, w: Walk)
    returns (keys: seq<(int, int)>, onts: map<(int, int), OntRecord>)
    ensures OntTable(keys, onts) == AssembleOnts(ifMap, OntCells(w))
  {
    ghost var cells := OntCells(w);
    keys, onts := [], map[];
    for i := 0 to |w|
      invariant OntTable(keys, onts) == AssembleOnts(ifMap, cells[..i])
    {
      AssembleStep(ifMap, cells, i);
      var (oid, value) := w[i];
      var cell := OntCellOf(oid, value);
      if cell.Some? {
        var key := cell.value.key;
        var rec := if key in onts then onts[key] else NewRecord(ifMap, key.0, key.1);
        if key !in onts {
          keys := keys + [key];
        }
        onts := onts[key := ApplyField(rec, cell.value.update)];
      }
    }
    assert cells[..|w|] == cells;
  }

  /** The second loop of get_ont_list: categorise every record, in key order. */
  method CategorizeOnts(keys: seq<(int, int)>, onts: map<(int, int), OntRecord>) returns (records: seq<OntRecord>)
    requires forall k :: k in keys ==> k in onts
    ensures records == CategorizedRecords(OntTable(keys, onts))
  {
    records := [];
    for j := 0 to |keys|
      invariant |records| == j
      invariant forall i :: 0 <= i < j ==> records[i] == WithCategory(onts[keys[i]])
    {
      records := records + [WithCategory(onts[keys[j]])];
    }
  }

  /**
   * get_ont_list over the replies of its two walks (ifDescr, then the six ONU columns):
   * assemble one record per key, then categorise every record.
   */
  method GetOntList(oltIp: string, community: string, ifData: Option<Walk>, walkData: Option<Walk>)
    returns (r: OntList)
    ensures r == OntListSpec(oltIp, community, ifData, walkData)
  {
    if oltIp == "" || community == "" {
      return OntListError(ConfigMissing);
    }
    var ifMap := GetInterfaceMap(ifData);
    if !WalkTruthy(walkData) {
      return OntListError(OntWalkFailed);
    }
    var keys, onts := CollectOnts(ifMap, walkData.value);
    var records := CategorizeOnts(keys, onts);
    r := OntList(records);
  }

  lemma AddCellKeys(ifMap: map<int, string>, t: OntTable, cell: Option<OntCell>, key: (int, int))
    ensures key in AddCell(ifMap, t, cell).recs <==> key in t.recs || (cell.Some? && cell.value.key == key)
  {
  }

  /** A key has a record exactly when some cell carries it. */
  lemma {:induction false} OntKeysExact(ifMap: map<int, string>, cells: seq<Option<OntCell>>, key: (int, int))
    ensures key in AssembleOnts(ifMap, cells).recs <==> CarriesKey(cells, key)
    decreases |cells|
  {
    if cells != [] {
      var p := cells[..|cells| - 1];
      var last := cells[|cells| - 1];
      OntKeysExact(ifMap, p, key);
      AddCellKeys(ifMap, AssembleOnts(ifMap, p), last, key);
      if CarriesKey(cells, key) {
        var j :| 0 <= j < |cells| && cells[j].Some? && cells[j].value.key == key;
        if j < |p| {
          assert p[j] == cells[j];
        }
      }
      if CarriesKey(p, key) {
        var j :| 0 <= j < |p| && p[j].Some? && p[j].value.key == key;
        assert cells[j] == p[j];
      }
    }
  }

  predicate CarriesKey(cells: seq<Option<OntCell>>, key: (int, int)) {
    exists j :: 0 <= j < |cells| && cells[j].Some? && cells[j].value.key == key
  }

  /**
   * Keying: the walk yields a record for (ifIndex, onuId) exactly when one of its rows
   * has that pair as its last two integer components.
   */
  lemma OntKeysOfWalk(ifMap: map<int, string>, w: Walk, key: (int, int))
    ensures key in AssembleOnts(ifMap, OntCells(w)).recs
            <==> exists j :: 0 <= j < |w| && OntCellOf(w[j].0, w[j].1).Some? && OntCellOf(w[j].0, w[j].1).value.key == key
  {
    OntKeysExact(ifMap, OntCells(w), key);
    var cells := OntCells(w);
    if CarriesKey(cells, key) {
      var j :| 0 <= j < |cells| && cells[j].Some? && cells[j].value.key == key;
      assert OntCellOf(w[j].0, w[j].1) == cells[j];
    }
  }

  // ---------------------------------------------------------------------------
  // What each field of an assembled record holds
  // ---------------------------------------------------------------------------

  /** The column a decoded field writes; None for a skipped row. */
  function UpdateColumn(u: FieldUpdate): Option<OntColumn> {
    match u
    case SetSerial(_) => Some(SerialColumn)
    case SetLoid(_) => Some(LoidColumn)
    case SetLink(_) => Some(LinkColumn)
    case SetReg(_) => Some(RegColumn)
    case SetRx(_) => Some(RxColumn)
    case SetTx(_) => Some(TxColumn)
    case NoUpdate => None
  }

  /** A record's field in one column, as the update that would write it. */
  function FieldIn(r: OntRecord, c: OntColumn): (u: FieldUpdate)
    ensures UpdateColumn(u) == Some(c)
  {
    match c
    case SerialColumn => SetSerial(r.serialNumber)
    case LoidColumn => SetLoid(r.loid)
    case LinkColumn => SetLink(r.linkStatus)
    case RegColumn => SetReg(r.regStatus)
    case RxColumn => SetRx(r.rxPower)
    case TxColumn => SetTx(r.txPower)
  }

  /** The update of the last cell for `key` that writes column `c`, or `d` when none does. */
  function LastUpdate(cells: seq<Option<OntCell>>, key: (int, int), c: OntColumn, d: FieldUpdate): FieldUpdate
    decreases |cells|
  {
    if cells == [] then d
    else
      var last := cells[|cells| - 1];
      if last.Some? && last.value.key == key && UpdateColumn(last.value.update) == Some(c) then last.value.update
      else LastUpdate(cells[..|cells| - 1], key, c, d)
  }

  /** An update writes its own column and leaves every other one. */
  lemma ApplyFieldIn(rec: OntRecord, u: FieldUpdate, c: OntColumn)
    ensures FieldIn(ApplyField(rec, u), c) == if UpdateColumn(u) == Some(c) then u else FieldIn(rec, c)
  {
  }

  /** Without a cell for the key, the default stands. */
  lemma {:induction false} LastUpdateAbsent(cells: seq<Option<OntCell>>, key: (int, int), c: OntColumn, d: FieldUpdate)
    requires !CarriesKey(cells, key)
    ensures LastUpdate(cells, key, c, d) == d
    decreases |cells|
  {
    if cells != [] {
      LastUpdateAbsent(cells[..|cells| - 1], key, c, d);
    }
  }

  /**
   * Each field of an assembled record is what the last cell for its key in that column
   * wrote, or the new record's default when no cell did.
   */
  lemma {:induction false} AssembledFields(ifMap: map<int, string>, cells: seq<Option<OntCell>>, key: (int, int), c: OntColumn)
    requires key in AssembleOnts(ifMap, cells).recs
    ensures FieldIn(AssembleOnts(ifMap, cells).recs[key], c)
              == LastUpdate(cells, key, c, FieldIn(NewRecord(ifMap, key.0, key.1), c))
    decreases |cells|
  {
    var d := FieldIn(NewRecord(ifMap, key.0, key.1), c);
    var p := cells[..|cells| - 1];
    var last := cells[|cells| - 1];
    var t0 := AssembleOnts(ifMap, p);
    AddCellKeys(ifMap, t0, last, key);
    if last.Some? && last.value.key == key {
      var u := last.value.update;
      if key in t0.recs {
        AssembledFields(ifMap, p, key, c);
        ApplyFieldIn(t0.recs[key], u, c);
      } else {
        OntKeysExact(ifMap, p, key);
        LastUpdateAbsent(p, key, c, d);
        ApplyFieldIn(NewRecord(ifMap, key.0, key.1), u, c);
      }
    } else {
      AssembledFields(ifMap, p, key, c);
    }
  }

  /** A status value counts only when it is an integer; every other column takes any value. */
  predicate Decodes(c: OntColumn, value: string) {
    (c == LinkColumn || c == RegColumn) ==> ParseInt(value).Some?
  }

  /** The value of the last row of the walk for `key` in column `c` that decodes. */
  function LastValue(w: Walk, key: (int, int), c: OntColumn): (r: Option<string>)
    ensures r.Some? ==> Decodes(c, r.value)
    decreases |w|
  {
    if w == [] then None
    else
      var (oid, value) := w[|w| - 1];
      if OntPlaceOf(oid) == Some((key, Some(c))) && Decodes(c, value) then Some(value)
      else LastValue(w[..|w| - 1], key, c)
  }

  /** The last cell writing a column is the decoding of the last row that decodes in it. */
  lemma {:induction false} LastUpdateOfWalk(w: Walk, key: (int, int), c: OntColumn, d: FieldUpdate)
    ensures LastUpdate(OntCells(w), key, c, d)
              == match LastValue(w, key, c) case Some(v) => FieldUpdateOf(Some(c), v) case None => d
    decreases |w|
  {
    if w != [] {
      var p := w[..|w| - 1];
      var cells := OntCells(w);
      assert cells[..|w| - 1] == OntCells(p);
      LastUpdateOfWalk(p, key, c, d);
      CellWrites(w[|w| - 1].0, w[|w| - 1].1, key, c);
    }
  }

  /** A row's cell writes column `c` of `key` exactly when the row is of that place and decodes. */
  lemma CellWrites(oid: string, value: string, key: (int, int), c: OntColumn)
    ensures var cell := OntCellOf(oid, value);
            (cell.Some? && cell.value.key == key && UpdateColumn(cell.value.update) == Some(c))
              <==> OntPlaceOf(oid) == Some((key, Some(c))) && Decodes(c, value)
    ensures var cell := OntCellOf(oid, value);
            OntPlaceOf(oid) == Some((key, Some(c))) ==> cell == Some(OntCell(key, FieldUpdateOf(Some(c), value)))
  {
    match OntPlaceOf(oid)
    case None =>
    case Some((k, column)) =>
      DecodedColumn(column, value, c);
  }

  /** A decoded value writes the column it was read from, unless it is a status that is not an integer. */
  lemma DecodedColumn(column: Option<OntColumn>, value: string, c: OntColumn)
    ensures UpdateColumn(FieldUpdateOf(column, value)) == Some(c) <==> column == Some(c) && Decodes(c, value)
  {
  }

  /**
   * The fields of a record as the walk determines them, for the record's own key: the
   * serial is the decoded value of the last serial row for that key, the LOID the last
   * LOID row, the link and registration status the table entry of the last row of that
   * column whose value is an integer, and each power the rendering of the last row of
   * its column; a field no such row reaches keeps its default ('N/A' or 'unknown').
   */
  predicate FieldsFromWalk(r: OntRecord, w: Walk) {
    var key := (r.ifIndex, r.onuId);
    && r.serialNumber == (match LastValue(w, key, SerialColumn) case Some(v) => DecodeSerial(v) case None => "N/A")
    && r.loid == (match LastValue(w, key, LoidColumn) case Some(v) => v case None => "N/A")
    && r.linkStatus == (match LastValue(w, key, LinkColumn) case Some(v) => LinkStatusOf(ParseInt(v).value) case None => LinkUnknown)
    && r.regStatus == (match LastValue(w, key, RegColumn) case Some(v) => RegStatusOf(ParseInt(v).value) case None => RegUnknown)
    && r.rxPower == (match LastValue(w, key, RxColumn) case Some(v) => PowerField(v) case None => "N/A")
    && r.txPower == (match LastValue(w, key, TxColumn) case Some(v) => PowerField(v) case None => "N/A")
  }

  /** get_ont_list's first loop, field by field: every assembled record is what its rows say. */
  lemma OntFieldsOfWalk(ifMap: map<int, string>, w: Walk, key: (int, int))
    requires key in AssembleOnts(ifMap, OntCells(w)).recs
    ensures FieldsFromWalk(AssembleOnts(ifMap, OntCells(w)).recs[key], w)
  {
    var r := AssembleOnts(ifMap, OntCells(w)).recs[key];
    var n := NewRecord(ifMap, key.0, key.1);
    OntFieldOfWalk(ifMap, w, key, SerialColumn);
    ReadField(r, n, SerialColumn, LastValue(w, key, SerialColumn));
    OntFieldOfWalk(ifMap, w, key, LoidColumn);
    ReadField(r, n, LoidColumn, LastValue(w, key, LoidColumn));
    OntFieldOfWalk(ifMap, w, key, LinkColumn);
    ReadField(r, n, LinkColumn, LastValue(w, key, LinkColumn));
    OntFieldOfWalk(ifMap, w, key, RegColumn);
    ReadField(r, n, RegColumn, LastValue(w, key, RegColumn));
    OntFieldOfWalk(ifMap, w, key, RxColumn);
    ReadField(r, n, RxColumn, LastValue(w, key, RxColumn));
    OntFieldOfWalk(ifMap, w, key, TxColumn);
    ReadField(r, n, TxColumn, LastValue(w, key, TxColumn));
  }

  /** What a column decoding of `lv` (or the default record `n`) writes, or the default's field. */
  function Written(c: OntColumn, lv: Option<string>, n: OntRecord): FieldUpdate {
    match lv
    case Some(v) => FieldUpdateOf(Some(c), v)
    case None => FieldIn(n, c)
  }

  /** Reading one field back out of the update that column equation gives. */
  lemma ReadField(r: OntRecord, n: OntRecord, c: OntColumn, lv: Option<string>)
    requires FieldIn(r, c) == Written(c, lv, n)
    requires lv.Some? ==> Decodes(c, lv.value)
    ensures c == SerialColumn ==> r.serialNumber == (match lv case Some(v) => DecodeSerial(v) case None => n.serialNumber)
    ensures c == LoidColumn ==> r.loid == (match lv case Some(v) => v case None => n.loid)
    ensures c == LinkColumn ==> r.linkStatus == (match lv case Some(v) => LinkStatusOf(ParseInt(v).value) case None => n.linkStatus)
    ensures c == RegColumn ==> r.regStatus == (match lv case Some(v) => RegStatusOf(ParseInt(v).value) case None => n.regStatus)
    ensures c == RxColumn ==> r.rxPower == (match lv case Some(v) => PowerField(v) case None => n.rxPower)
    ensures c == TxColumn ==> r.txPower == (match lv case Some(v) => PowerField(v) case None => n.txPower)
  {
  }

  /**
   * The list get_ont_list returns: every record's serial, LOID, statuses and powers are
   * the decodings of the last applicable rows of the ONU walk for its key, or the defaults.
   */
  lemma OntListFields(oltIp: string, community: string, ifData: Option<Walk>, walkData: Option<Walk>)
    ensures var l := OntListSpec(oltIp, community, ifData, walkData);
            l.OntList? ==> forall i :: 0 <= i < |l.records| ==> FieldsFromWalk(l.records[i], walkData.value)
  {
    var l := OntListSpec(oltIp, community, ifData, walkData);
    if l.OntList? {
      var w := walkData.value;
      var t := AssembleOnts(InterfaceMap(ifData), OntCells(w));
      forall i | 0 <= i < |l.records|
        ensures FieldsFromWalk(l.records[i], w)
      {
        var key := t.keys[i];
        OntFieldsOfWalk(InterfaceMap(ifData), w, key);
        assert l.records[i] == WithCategory(t.recs[key]);
      }
    }
  }

  /** One column of an assembled record: the decoding of its last row, or the default. */
  lemma OntFieldOfWalk(ifMap: map<int, string>, w: Walk, key: (int, int), c: OntColumn)
    requires key in AssembleOnts(ifMap, OntCells(w)).recs
    ensures FieldIn(AssembleOnts(ifMap, OntCells(w)).recs[key], c) == Written(c, LastValue(w, key, c), NewRecord(ifMap, key.0, key.1))
  {
    var n := NewRecord(ifMap, key.0, key.1);
    AssembledFields(ifMap, OntCells(w), key, c);
    LastUpdateOfWalk(w, key, c, FieldIn(n, c));
  }

  /**
   * The returned list holds one record per distinct key, each carrying its key and port
   * name, and each categorised from its link and registration status alone: the power
   * is never read, so no record is graded by signal and an online, registered ONU is
   * always "Online (Sinal Desconhecido)".
   */
  lemma OntRecordsShape(oltIp: string, community: string, ifData: Option<Walk>, walkData: Option<Walk>)
    requires OntListSpec(oltIp, community, ifData, walkData).OntList?
    ensures var recs := OntListSpec(oltIp, community, ifData, walkData).records;
            && (forall a, b :: 0 <= a < b < |recs| ==> (recs[a].ifIndex, recs[a].onuId) != (recs[b].ifIndex, recs[b].onuId))
            && (forall a :: 0 <= a < |recs| ==> recs[a].portName == PortName(InterfaceMap(ifData), recs[a].ifIndex))
            && (forall a :: 0 <= a < |recs| ==>
                  recs[a].category == Categorize(recs[a].linkStatus, recs[a].regStatus, None))
            && (forall a :: 0 <= a < |recs| ==>
                  recs[a].category !in {VeryLowSignal, LowCriticalSignal, OnlineSignalOk})
            && (forall a :: 0 <= a < |recs| && recs[a].linkStatus == LinkOnline && recs[a].regStatus == Registered ==>
                  recs[a].category == OnlineSignalUnknown)
  {
    var t := AssembleOnts(InterfaceMap(ifData), OntCells(walkData.value));
    RecordsKeyed(InterfaceMap(ifData), t);
    CategoriesIgnorePower(t);
  }

  /** The categorised records of an assembled table are keyed apart and carry their port names. */
  lemma RecordsKeyed(ifMap: map<int, string>, t: OntTable)
    requires forall k :: k in t.recs <==> k in t.keys
    requires DistinctKeys(t.keys)
    requires forall k :: k in t.recs ==>
               t.recs[k].ifIndex == k.0 && t.recs[k].onuId == k.1 && t.recs[k].portName == PortName(ifMap, k.0)
    ensures var recs := CategorizedRecords(t);
            && (forall a, b :: 0 <= a < b < |recs| ==> (recs[a].ifIndex, recs[a].onuId) != (recs[b].ifIndex, recs[b].onuId))
            && (forall a :: 0 <= a < |recs| ==> recs[a].portName == PortName(ifMap, recs[a].ifIndex))
  {
    var recs := CategorizedRecords(t);
    forall a, b | 0 <= a < b < |recs|
      ensures (recs[a].ifIndex, recs[a].onuId) != (recs[b].ifIndex, recs[b].onuId)
    {
      assert t.keys[a] != t.keys[b];
    }
  }

  /** Categorised as written, a record's category depends on its two statuses only. */
  lemma CategoriesIgnorePower(t: OntTable)
    requires forall k :: k in t.keys ==> k in t.recs
    ensures var recs := CategorizedRecords(t);
            && (forall a :: 0 <= a < |recs| ==>
                  recs[a].category == Categorize(recs[a].linkStatus, recs[a].regStatus, None))
            && (forall a :: 0 <= a < |recs| ==>
                  recs[a].category !in {VeryLowSignal, LowCriticalSignal, OnlineSignalOk})
            && (forall a :: 0 <= a < |recs| && recs[a].linkStatus == LinkOnline && recs[a].regStatus == Registered ==>
                  recs[a].category == OnlineSignalUnknown)
  {
    var recs := CategorizedRecords(t);
    forall a | 0 <= a < |recs|
      ensures recs[a].category == Categorize(recs[a].linkStatus, recs[a].regStatus, None)
    {
      AsWrittenNeverParses(recs[a].rxPower);
    }
  }

  /**
   * The intended list keeps every record and changes only categories: exactly the
   * online, registered records whose power parses move from "Online (Sinal
   * Desconhecido)" to the band of their power.
   */
  lemma IntendedRegrade(records: seq<OntRecord>)
    requires forall a :: 0 <= a < |records| ==>
               records[a].category == Categorize(records[a].linkStatus, records[a].regStatus, None)
    ensures var r := IntendedRecords(records);
            && |r| == |records|
            && (forall a :: 0 <= a < |r| ==> r[a] == records[a].(category := r[a].category))
            && (forall a :: 0 <= a < |r| ==>
                  (r[a].category != records[a].category <==>
                     records[a].linkStatus == LinkOnline && records[a].regStatus == Registered
                     && ParseRxPower(records[a].rxPower).Some?))
  {
  }

  /** On the list get_ont_list returns, the intended grading differs exactly as IntendedRegrade says. */
  lemma IntendedOntList(oltIp: string, community: string, ifData: Option<Walk>, walkData: Option<Walk>)
    requires OntListSpec(oltIp, community, ifData, walkData).OntList?
    ensures var recs := OntListSpec(oltIp, community, ifData, walkData).records;
            forall a :: 0 <= a < |recs| ==>
              IntendedRecords(recs)[a].category == Categorize(recs[a].linkStatus, recs[a].regStatus, ParseRxPower(recs[a].rxPower))
              && (IntendedRecords(recs)[a].category != recs[a].category <==>
                    recs[a].linkStatus == LinkOnline && recs[a].regStatus == Registered && ParseRxPower(recs[a].rxPower).Some?)
  {
    var recs := OntListSpec(oltIp, community, ifData, walkData).records;
    OntRecordsShape(oltIp, community, ifData, walkData);
    IntendedRegrade(recs);
  }

  /** A status value that is not an integer leaves the record at what it was. */
  lemma UnparsedStatusKeepsRecord(rec: OntRecord, column: OntColumn, value: string)
    requires column == LinkColumn || column == RegColumn
    requires ParseInt(value).None?
    ensures ApplyField(rec, FieldUpdateOf(Some(column), value)) == rec
  {
  }

  /** A status column with an integer code sets the status through its table. */
  lemma StatusColumn(rec: OntRecord, code: int)
    ensures ApplyField(rec, FieldUpdateOf(Some(LinkColumn), IntToString(code))).linkStatus == LinkStatusOf(code)
    ensures ApplyField(rec, FieldUpdateOf(Some(RegColumn), IntToString(code))).regStatus == RegStatusOf(code)
  {
    ParseIntToString(code);
  }

  /** A power column written with the raw integer n reads back as n when categorised. */
  lemma PowerColumnRoundTrip(rec: OntRecord, n: int)
    ensures ParseRxPower(ApplyField(rec, FieldUpdateOf(Some(RxColumn), IntToString(n))).rxPower) == Some(n)
  {
    var v := IntToString(n);
    ParseIntToString(n);
    assert PowerField(v) == FormatPower(n);
    var r := ApplyField(rec, FieldUpdateOf(Some(RxColumn), v));
    assert r.rxPower == FormatPower(n);
    ParseFormatPower(n);
  }

  /** Without IP or community, or with a failed ONU walk, the result is the matching error. */
  lemma OntListErrors(oltIp: string, community: string, ifData: Option<Walk>, walkData: Option<Walk>)
    ensures oltIp == "" || community == "" ==> OntListSpec(oltIp, community, ifData, walkData) == OntListError(ConfigMissing)
    ensures oltIp != "" && community != "" && !WalkTruthy(walkData) ==>
              OntListSpec(oltIp, community, ifData, walkData) == OntListError(OntWalkFailed)
  {
  }
}
