/**
 * SNMPManager and HuaweiOLTManager (app/models/snmp_manager.py).
 *
 * The agent is an input: the response PDU it gives to a GET of an OID, the responses of
 * a walk (one per step of the GET-NEXT iteration), and its response to a SET of a value.
 * Values are carried as the text `str()` gives for them.
 */
module SnmpManager {
  import opened Wrappers
  import opened PyText

  /**
   * One response as the pysnmp iterator yields it: errorIndication ("" for none),
   * errorStatus (0 for noError) with its printed name, errorIndex, and the variable
   * bindings as (OID text, value text).
   */
  datatype Response = Response(
    errorIndication: string, errorStatus: int, statusName: string, errorIndex: int,
    varBinds: seq<(string, string)>)

  /**
   * The agent: its answer to a GET, to a walk, and to a SET of an integer value, and
   * the exception text `UdpTransportTarget((host, port))` raises when the address does
   * not resolve (None when it does).
   */
  datatype Agent = Agent(
    get: string -> Response, walk: string -> seq<Response>, write: (string, int) -> Response,
    unresolved: Option<string>)

  datatype Manager = Manager(host: string, community: string, port: int, version: string)

  /**
   * The exception a call raises while building its transport target, outside any
   * `try` of this class. Only a v2c manager builds one (for a SET, after the value, which
   * for the 'Integer' writes below is always built), and the same address fails the
   * same way on every call; the functions below describe the calls that got past it.
   */
  function TransportRaise(m: Manager, agent: Agent): (r: Option<string>)
    ensures r.Some? <==> m.version == "2c" && agent.unresolved.Some?
  {
    if m.version == "2c" then agent.unresolved else None
  }

  const UnsupportedVersion: string := "Versão SNMP não suportada"
  const UnsupportedType: string := "Tipo de valor não suportado"

  /** The OID the error refers to: the errorIndex-th binding (1-based), "?" when there is none. */
  function ErrorLocation(r: Response): string {
    if 1 <= r.errorIndex <= |r.varBinds| && r.varBinds[r.errorIndex - 1].0 != "" then r.varBinds[r.errorIndex - 1].0
    else "?"
  }

  /** The error text of a response, errorIndication first. */
  function ResponseError(r: Response): Option<string> {
    if r.errorIndication != "" then Some("Erro: " + r.errorIndication)
    else if r.errorStatus != 0 then Some("Erro: " + r.statusName + " em " + ErrorLocation(r))
    else None
  }

  /** A (value, err) pair. */
  datatype Fetched = Fetched(value: Option<string>, error: Option<string>)

  /**
   * get_snmp_data: the first binding's value. A v2c response without bindings falls
   * out of the loop to the unsupported-version return.
   */
  function GetSnmpData(m: Manager, oid: string, agent: Agent): (r: Fetched)
    ensures r.value.Some? <==> r.error.None?
  {
    if m.version != "2c" then Fetched(None, Some(UnsupportedVersion))
    else
      var reply := agent.get(oid);
      match ResponseError(reply)
      case Some(e) => Fetched(None, Some(e))
      case None =>
        if |reply.varBinds| > 0 then Fetched(Some(reply.varBinds[0].1), None)
        else Fetched(None, Some(UnsupportedVersion))
  }

  /** Any version but "2c" is refused whatever the agent would answer (no request is made). */
  lemma GetVersionGuard(m: Manager, oid: string, a: Agent, b: Agent)
    requires m.version != "2c"
    ensures GetSnmpData(m, oid, a) == GetSnmpData(m, oid, b) == Fetched(None, Some(UnsupportedVersion))
  {
  }

  /** A clean v2c response yields its first binding; an empty one is reported as an unsupported version. */
  lemma GetOutcomes(m: Manager, oid: string, a: Agent)
    requires m.version == "2c" && ResponseError(a.get(oid)).None?
    ensures |a.get(oid).varBinds| > 0 ==> GetSnmpData(m, oid, a) == Fetched(Some(a.get(oid).varBinds[0].1), None)
    ensures |a.get(oid).varBinds| == 0 ==> GetSnmpData(m, oid, a) == Fetched(None, Some(UnsupportedVersion))
  {
  }

  /** Every binding of a list of responses, in order. */
  function AllBindings(replies: seq<Response>): seq<(string, string)>
    decreases |replies|
  {
    if replies == [] then [] else replies[0].varBinds + AllBindings(replies[1..])
  }

  /** The first error among the responses of a walk, if any. */
  function FirstWalkError(replies: seq<Response>): Option<string>
    decreases |replies|
  {
    if replies == [] then None
    else if ResponseError(replies[0]).Some? then ResponseError(replies[0])
    else FirstWalkError(replies[1..])
  }

  datatype Walked = Walked(rows: Option<seq<(string, string)>>, error: Option<string>)

  function WalkSpec(m: Manager, replies: seq<Response>): (w: Walked)
    ensures w.rows.Some? <==> w.error.None?
  {
    if m.version != "2c" then Walked(None, Some(UnsupportedVersion))
    else if FirstWalkError(replies).Some? then Walked(None, FirstWalkError(replies))
    else Walked(Some(AllBindings(replies)), None)
  }

  /** walk_snmp_data over the responses of the walk of `oid`. */
  method WalkSnmpData(m: Manager, oid: string, agent: Agent) returns (rows: Option<seq<(string, string)>>, err: Option<string>)
    ensures Walked(rows, err) == WalkSpec(m, agent.walk(oid))
  {
    if m.version != "2c" {
      return None, Some(UnsupportedVersion);
    }
    var replies := agent.walk(oid);
    var result: seq<(string, string)> := [];
    for i := 0 to |replies|
      invariant FirstWalkError(replies) == FirstWalkError(replies[i..])
      invariant AllBindings(replies) == result + AllBindings(replies[i..])
    {
      assert replies[i..][1..] == replies[i + 1..];
      var reply := replies[i];
      assert FirstWalkError(replies[i..]) ==
               if ResponseError(reply).Some? then ResponseError(reply) else FirstWalkError(replies[i + 1..]);
      if reply.errorIndication != "" {
        return None, Some("Erro: " + reply.errorIndication);
      } else if reply.errorStatus != 0 {
        return None, Some("Erro: " + reply.statusName + " em " + ErrorLocation(reply));
      }
      result := result + reply.varBinds;
    }
    assert replies[|replies|..] == [];
    assert AllBindings(replies) == result + [] == result;
    rows, err := Some(result), None;
  }

  /** An error at any step discards every row gathered before it. */
  lemma {:induction false} WalkErrorDiscards(m: Manager, replies: seq<Response>, k: int)
    requires m.version == "2c" && 0 <= k < |replies| && ResponseError(replies[k]).Some?
    requires forall j :: 0 <= j < k ==> ResponseError(replies[j]).None?
    ensures WalkSpec(m, replies) == Walked(None, ResponseError(replies[k]))
  {
    FirstWalkErrorAt(replies, k);
  }

  lemma {:induction false} FirstWalkErrorAt(replies: seq<Response>, k: int)
    requires 0 <= k < |replies| && ResponseError(replies[k]).Some?
    requires forall j :: 0 <= j < k ==> ResponseError(replies[j]).None?
    ensures FirstWalkError(replies) == ResponseError(replies[k])
    decreases k
  {
    if k > 0 {
      FirstWalkErrorAt(replies[1..], k - 1);
    }
  }

  /** A clean walk returns every binding of every response, in order. */
  lemma {:induction false} WalkCleanRows(m: Manager, replies: seq<Response>)
    requires m.version == "2c" && forall j :: 0 <= j < |replies| ==> ResponseError(replies[j]).None?
    ensures WalkSpec(m, replies) == Walked(Some(AllBindings(replies)), None)
  {
    NoWalkError(replies);
  }

  lemma {:induction false} NoWalkError(replies: seq<Response>)
    requires forall j :: 0 <= j < |replies| ==> ResponseError(replies[j]).None?
    ensures FirstWalkError(replies) == None
    decreases |replies|
  {
    if replies != [] {
      NoWalkError(replies[1..]);
    }
  }

  /** The six value types set_snmp_data can build. */
  predicate SupportedType(valueType: string) {
    valueType in ["Integer", "OctetString", "Counter32", "Counter64", "Gauge32", "IpAddress"]
  }

  /** set_snmp_data of an integer value: version guard, type guard, then the agent's response. */
  function SetSnmpData(m: Manager, oid: string, valueType: string, value: int, agent: Agent): (bool, Option<string>) {
    if m.version != "2c" then (false, Some(UnsupportedVersion))
    else if !SupportedType(valueType) then (false, Some(UnsupportedType))
    else
      match ResponseError(agent.write(oid, value))
      case Some(e) => (false, Some(e))
      case None => (true, None)
  }

  /** An unsupported type is refused before anything is sent; success means the agent raised no error. */
  lemma SetGuards(m: Manager, oid: string, valueType: string, value: int, a: Agent, b: Agent)
    ensures m.version == "2c" && !SupportedType(valueType) ==>
              SetSnmpData(m, oid, valueType, value, a) == SetSnmpData(m, oid, valueType, value, b)
                == (false, Some(UnsupportedType))
    ensures m.version != "2c" ==> SetSnmpData(m, oid, valueType, value, a) == (false, Some(UnsupportedVersion))
    ensures SetSnmpData(m, oid, valueType, value, a).0 <==>
              m.version == "2c" && SupportedType(valueType) && ResponseError(a.write(oid, value)).None?
  {
  }

  // ---------------------------------------------------------------------------
  // HuaweiOLTManager
  // ---------------------------------------------------------------------------

  const OidSystemName: string := "1.3.6.1.2.1.1.5.0"
  const OidSystemDescription: string := "1.3.6.1.2.1.1.1.0"
  const OidSystemUptime: string := "1.3.6.1.2.1.1.3.0"
  const OidOnuList: string := "1.3.6.1.4.1.2011.6.128.1.1.2.43.1.3"
  const OidOnuStatus: string := "1.3.6.1.4.1.2011.6.128.1.1.2.43.1.8"
  const OidOnuSignal: string := "1.3.6.1.4.1.2011.6.128.1.1.2.51.1.4"

  datatype SystemInfo = SystemInfo(name: string, description: string, uptime: string)

  /** get_system_info: three GETs; the first error is returned and the rest are not made. */
  function GetSystemInfo(m: Manager, agent: Agent): (Option<SystemInfo>, Option<string>) {
    var name := GetSnmpData(m, OidSystemName, agent);
    if name.error.Some? then (None, name.error)
    else
      var descr := GetSnmpData(m, OidSystemDescription, agent);
      if descr.error.Some? then (None, descr.error)
      else
        var uptime := GetSnmpData(m, OidSystemUptime, agent);
        if uptime.error.Some? then (None, uptime.error)
        else (Some(SystemInfo(name.value.value, descr.value.value, uptime.value.value)), None)
  }

  /** Either a dict or an error, never both; a name error hides whatever the agent says about the others. */
  lemma SystemInfoOutcomes(m: Manager, a: Agent, b: Agent)
    ensures var (info, err) := GetSystemInfo(m, a);
            (info.Some? <==> err.None?)
            && (info.Some? ==> info.value.name == GetSnmpData(m, OidSystemName, a).value.value)
    ensures GetSnmpData(m, OidSystemName, a).error.Some? && a.get(OidSystemName) == b.get(OidSystemName) ==>
              GetSystemInfo(m, a) == GetSystemInfo(m, b) == (None, GetSnmpData(m, OidSystemName, a).error)
  {
  }

  /** An entry of get_onu_list: the last OID component and the value's text. */
  datatype OnuEntry = OnuEntry(id: string, serial: string)

  /** `oid.split('.')[-1]` */
  function LastComponent(oid: string): string {
    var parts := Split(oid, '.');
    parts[|parts| - 1]
  }

  function EntryOf(row: (string, string)): OnuEntry {
    OnuEntry(LastComponent(row.0), row.1)
  }

  datatype OnuListing = OnuListing(entries: Option<seq<OnuEntry>>, error: Option<string>)

  function OnuListSpec(m: Manager, agent: Agent): OnuListing {
    var w := WalkSpec(m, agent.walk(OidOnuList));
    if w.error.Some? then OnuListing(None, w.error)
    else OnuListing(Some(EntriesOf(w.rows.value)), None)
  }

  /** One entry per walked pair, in order. */
  function EntriesOf(rows: seq<(string, string)>): seq<OnuEntry>
    decreases |rows|
  {
    if rows == [] then [] else EntriesOf(rows[..|rows| - 1]) + [EntryOf(rows[|rows| - 1])]
  }

  lemma {:induction false} EntriesOfIndex(rows: seq<(string, string)>)
    ensures |EntriesOf(rows)| == |rows|
    ensures forall j :: 0 <= j < |rows| ==> EntriesOf(rows)[j] == EntryOf(rows[j])
    decreases |rows|
  {
    if rows != [] {
      var init := rows[..|rows| - 1];
      EntriesOfIndex(init);
      var e := EntriesOf(rows);
      assert e == EntriesOf(init) + [EntryOf(rows[|rows| - 1])];
      forall j | 0 <= j < |rows|
        ensures e[j] == EntryOf(rows[j])
      {
        if j < |init| {
          assert rows[j] == init[j];
        }
      }
    }
  }

  /** get_onu_list: one entry per walked pair, in order; a walk error propagates. */
  method GetOnuList(m: Manager, agent: Agent) returns (entries: Option<seq<OnuEntry>>, err: Option<string>)
    ensures OnuListing(entries, err) == OnuListSpec(m, agent)
  {
    var onus, walkErr := WalkSnmpData(m, OidOnuList, agent);
    if walkErr.Some? {
      return None, walkErr;
    }
    var rows := onus.value;
    var onuList: seq<OnuEntry> := [];
    for i := 0 to |rows|
      invariant onuList == EntriesOf(rows[..i])
    {
      assert rows[..i + 1][..i] == rows[..i];
      var (oid, value) := rows[i];
      onuList := onuList + [OnuEntry(LastComponent(oid), value)];
    }
    assert rows[..|rows|] == rows;
    entries, err := Some(onuList), None;
  }

  /** A clean walk gives one entry per binding, in order, keyed by the last OID component. */
  lemma OnuListEntries(m: Manager, a: Agent)
    requires m.version == "2c"
    ensures var l := OnuListSpec(m, a);
            var w := WalkSpec(m, a.walk(OidOnuList));
            (l.error.Some? <==> w.error.Some?)
            && (l.entries.Some? ==>
                  (|l.entries.value| == |AllBindings(a.walk(OidOnuList))|
                   && forall j :: 0 <= j < |l.entries.value| ==>
                        l.entries.value[j].serial == AllBindings(a.walk(OidOnuList))[j].1))
  {
    EntriesOfIndex(AllBindings(a.walk(OidOnuList)));
  }

  /** The last component is what follows the last '.'; an OID ending in ".n" yields n. */
  lemma {:induction false} LastComponentOf(prefix: string, n: string)
    requires forall j :: 0 <= j < |n| ==> n[j] != '.'
    ensures LastComponent(prefix + "." + n) == n
  {
    SplitLast(prefix, n, '.');
  }

  /** The last piece of a split is what follows the last separator. */
  lemma {:induction false} SplitLast(prefix: string, n: string, sep: char)
    requires forall j :: 0 <= j < |n| ==> n[j] != sep
    ensures var parts := Split(prefix + [sep] + n, sep); parts[|parts| - 1] == n
    decreases |prefix|
  {
    var s := prefix + [sep] + n;
    var k := IndexOf(s, sep);
    if k == |prefix| {
      assert s[k + 1..] == n;
      IndexOfAbsent(n, sep);
    } else {
      assert k < |prefix| by {
        if k > |prefix| {
          assert s[|prefix|] == sep;
          IndexOfFirstBound(s, sep, |prefix|);
        }
      }
      assert s[k + 1..] == prefix[k + 1..] + [sep] + n;
      SplitLast(prefix[k + 1..], n, sep);
    }
  }

  /** IndexOf never passes an occurrence. */
  lemma {:induction false} IndexOfFirstBound(s: string, c: char, j: int)
    requires 0 <= j < |s| && s[j] == c
    ensures IndexOf(s, c) <= j
    decreases j
  {
    if j > 0 && s[0] != c {
      IndexOfFirstBound(s[1..], c, j - 1);
    }
  }

  /** The status OID of an ONU: the status column followed by its id. */
  function StatusOid(onuId: string): string {
    OidOnuStatus + "." + onuId
  }

  function SignalOid(onuId: string): string {
    OidOnuSignal + "." + onuId
  }

  /** status_map.get(str(status), 'unknown') */
  function StatusName(code: string): string {
    if code == "1" then "online"
    else if code == "2" then "offline"
    else if code == "3" then "disabled"
    else "unknown"
  }

  /** get_onu_status */
  function GetOnuStatus(m: Manager, onuId: string, agent: Agent): Fetched {
    var r := GetSnmpData(m, StatusOid(onuId), agent);
    if r.error.Some? then Fetched(None, r.error) else Fetched(Some(StatusName(r.value.value)), None)
  }

  /** The status is one of four names; the code decides it, and only codes 1 to 3 name anything but unknown. */
  lemma StatusNames(code: string)
    ensures StatusName(code) in {"online", "offline", "disabled", "unknown"}
    ensures StatusName(code) == "online" <==> code == "1"
    ensures StatusName(code) == "offline" <==> code == "2"
    ensures StatusName(code) == "disabled" <==> code == "3"
  {
  }

  /** get_onu_status reads the status column of that ONU and nothing else. */
  lemma OnuStatusReadsItsOid(m: Manager, onuId: string, a: Agent, b: Agent)
    requires a.get(StatusOid(onuId)) == b.get(StatusOid(onuId))
    ensures GetOnuStatus(m, onuId, a) == GetOnuStatus(m, onuId, b)
    ensures GetOnuStatus(m, onuId, a).error.None? ==> GetOnuStatus(m, onuId, a).value.value in {"online", "offline", "disabled", "unknown"}
  {
  }

  /** The value of a decimal text: optional sign, digits, optional fraction (float() on plain decimals). */
  function ParseDecimal(s: string): Option<real> {
    var t := Strip(s);
    var neg := |t| > 0 && t[0] == '-';
    var body := if |t| > 0 && (t[0] == '-' || t[0] == '+') then t[1..] else t;
    var k := IndexOf(body, '.');
    var whole := body[..k];
    var frac := if k < |body| then body[k + 1..] else "";
    if (|whole| == 0 && |frac| == 0) || !AllDigits(whole) || !AllDigits(frac) then None
    else
      var v := DigitsValue(whole) as real + (DigitsValue(frac) as real) / (Pow10(|frac|) as real);
      Some(if neg then -v else v)
  }

  function Pow10(n: nat): (p: nat)
    ensures p >= 1
  {
    if n == 0 then 1 else 10 * Pow10(n - 1)
  }

  /** The decimal rendering of an integer reads back as that integer. */
  lemma ParseDecimalOfInt(i: int)
    ensures ParseDecimal(IntToString(i)) == Some(i as real)
  {
    var n: nat := if i < 0 then -i else i;
    NatToStringDigits(n);
    ParseDecimalOfDigits(IntToString(i), i < 0, NatToString(n));
  }

  /** An optional minus sign and a digit string read back as their value. */
  lemma ParseDecimalOfDigits(s: string, neg: bool, d: string)
    requires IsDigitString(d) && s == (if neg then "-" + d else d)
    ensures ParseDecimal(s) == Some(if neg then -(DigitsValue(d) as real) else DigitsValue(d) as real)
  {
    assert s[|s| - 1] == d[|d| - 1];
    StripUnchanged(s);
    var body := if neg then s[1..] else s;
    assert body == d;
    assert forall j :: 0 <= j < |d| ==> d[j] != '.';
    IndexOfAbsent(d, '.');
    assert d[..|d|] == d;
    assert DigitsValue("") == 0 && Pow10(0) == 1;
  }

  /** The reading of get_onu_signal: a value, an error, or the exception float() raises. */
  datatype Signal = SignalValue(dbm: real) | SignalError(error: string) | SignalRaises(detail: string)

  /** get_onu_signal: the value in tenths of a dB. */
  function GetOnuSignal(m: Manager, onuId: string, agent: Agent): Signal {
    var r := GetSnmpData(m, SignalOid(onuId), agent);
    if r.error.Some? then SignalError(r.error.value)
    else
      match ParseDecimal(r.value.value)
      case Some(v) => SignalValue(v / 10.0)
      case None => SignalRaises("could not convert string to float: '" + r.value.value + "'")
  }

  /** An integer reading n is n / 10 dBm. */
  lemma SignalTenths(m: Manager, onuId: string, a: Agent, n: int)
    requires GetSnmpData(m, SignalOid(onuId), a) == Fetched(Some(IntToString(n)), None)
    ensures GetOnuSignal(m, onuId, a) == SignalValue(n as real / 10.0)
  {
    ParseDecimalOfInt(n);
  }

  /** enable_onu: write the integer 1 to the ONU's status OID. */
  function EnableOnu(m: Manager, onuId: string, agent: Agent): (bool, Option<string>) {
    SetSnmpData(m, StatusOid(onuId), "Integer", 1, agent)
  }

  /** disable_onu: write the integer 3 to the ONU's status OID. */
  function DisableOnu(m: Manager, onuId: string, agent: Agent): (bool, Option<string>) {
    SetSnmpData(m, StatusOid(onuId), "Integer", 3, agent)
  }

  /** Enabling and disabling depend only on the agent's answer to writing 1, resp. 3, to the status OID. */
  lemma EnableDisableWrites(m: Manager, onuId: string, a: Agent, b: Agent)
    ensures a.write(StatusOid(onuId), 1) == b.write(StatusOid(onuId), 1) ==> EnableOnu(m, onuId, a) == EnableOnu(m, onuId, b)
    ensures a.write(StatusOid(onuId), 3) == b.write(StatusOid(onuId), 3) ==> DisableOnu(m, onuId, a) == DisableOnu(m, onuId, b)
    ensures EnableOnu(m, onuId, a).0 <==> m.version == "2c" && ResponseError(a.write(StatusOid(onuId), 1)).None?
    ensures DisableOnu(m, onuId, a).0 <==> m.version == "2c" && ResponseError(a.write(StatusOid(onuId), 3)).None?
  {
  }
}
