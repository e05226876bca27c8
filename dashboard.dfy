/**
 * The dashboard blueprint (app/controllers/main.py): the module-level poll cache shared
 * by the routes, the category counts of the dashboard, the category filter of the ONU
 * API and the CLI authorization of a new ONT.
 *
 * Fetching (get_olt_info, get_ont_list) and the SSH calls are inputs: the values the
 * fetch would return now, and the reply of the n-th call to execute_olt_command.
 * Times are microseconds (the resolution of datetime).
 */
module Dashboard {
  import opened Wrappers
  import opened PyText
  import opened SnmpDecode
  import opened SnmpUtils

  // ---------------------------------------------------------------------------
  // The poll cache
  // ---------------------------------------------------------------------------

  /** CACHE_TIMEOUT_SECONDS, in microseconds. */
  const CacheTtl: int := 60_000_000

  datatype CacheState = CacheState(oltInfo: Option<OltInfo>, ontList: Option<OntList>, lastFetch: Option<int>)

  const EmptyCache: CacheState := CacheState(None, None, None)

  /** The cache answers without fetching: fetched less than a minute ago, both entries set. */
  predicate CacheHit(c: CacheState, now: int) {
    c.lastFetch.Some? && now - c.lastFetch.value < CacheTtl && c.oltInfo.Some? && c.ontList.Some?
  }

  /** What _get_cached_snmp_data returns, whether it fetched, and the cache after it. */
  datatype Served = Served(state: CacheState, info: OltInfo, list: OntList, fetched: bool)

  /** _get_cached_snmp_data, given what the two fetches would return at `now`. */
  function Serve(c: CacheState, now: int, fetchedInfo: OltInfo, fetchedList: OntList): Served {
    if CacheHit(c, now) then Served(c, c.oltInfo.value, c.ontList.value, false)
    else Served(CacheState(Some(fetchedInfo), Some(fetchedList), Some(now)), fetchedInfo, fetchedList, true)
  }

  /** The stored pair is returned with no fetch exactly when the cache is fresh; else both are fetched and stored. */
  lemma ServeHitOrFetch(c: CacheState, now: int, fi: OltInfo, fl: OntList)
    ensures var s := Serve(c, now, fi, fl);
            (!s.fetched <==> CacheHit(c, now))
            && (!s.fetched ==> s.state == c && Some(s.info) == c.oltInfo && Some(s.list) == c.ontList)
            && (s.fetched ==> s.info == fi && s.list == fl && s.state == CacheState(Some(fi), Some(fl), Some(now)))
  {
  }

  /**
   * A fetch that failed is stored like any other: for the rest of the minute the error
   * is served again without fetching, whatever the fetch would now return.
   */
  lemma ErrorIsCached(c: CacheState, t0: int, now: int, e0: string, e1: string, fi: OltInfo, fl: OntList)
    requires !CacheHit(c, t0) && t0 <= now < t0 + CacheTtl
    ensures var s0 := Serve(c, t0, OltInfoError(e0), OntListError(e1));
            var s1 := Serve(s0.state, now, fi, fl);
            !s1.fetched && s1.info == OltInfoError(e0) && s1.list == OntListError(e1)
  {
  }

  /** After refresh_data the next request always fetches. */
  lemma RefreshForcesFetch(now: int, fi: OltInfo, fl: OntList)
    ensures Serve(EmptyCache, now, fi, fl).fetched
  {
  }

  // ---------------------------------------------------------------------------
  // Category counts of the dashboard
  // ---------------------------------------------------------------------------

  /** Records whose category label is `name`. */
  function CountLabel(records: seq<OntRecord>, name: string): nat
    decreases |records|
  {
    if records == [] then 0
    else (if Label(records[0].category) == name then 1 else 0) + CountLabel(records[1..], name)
  }

  function CountOf(counts: map<string, nat>, name: string): nat {
    if name in counts then counts[name] else 0
  }

  /** The Counter after `ont_categories[category] += 1` for every record, in order. */
  function CounterOf(records: seq<OntRecord>): map<string, nat>
    decreases |records|
  {
    if records == [] then map[]
    else
      var counts := CounterOf(records[..|records| - 1]);
      var l := Label(records[|records| - 1].category);
      counts[l := CountOf(counts, l) + 1]
  }

  /** The Counter counts the records of each label, and holds no label without records. */
  lemma {:induction false} CounterCounts(records: seq<OntRecord>, name: string)
    ensures CountOf(CounterOf(records), name) == CountLabel(records, name)
    ensures name in CounterOf(records) ==> CountLabel(records, name) > 0
    decreases |records|
  {
    if records != [] {
      var init := records[..|records| - 1];
      CounterCounts(init, name);
      CountLabelLast(records, name);
      CounterStep(CounterOf(init), Label(records[|records| - 1].category), name, CountLabel(init, name), CountLabel(records, name));
    }
  }

  /** One `+= 1` on label `l` keeps the Counter in step with a count `k0` that becomes `k1`. */
  lemma CounterStep(c0: map<string, nat>, l: string, name: string, k0: nat, k1: nat)
    requires CountOf(c0, name) == k0 && (name in c0 ==> k0 > 0)
    requires k1 == k0 + (if l == name then 1 else 0)
    ensures CountOf(c0[l := CountOf(c0, l) + 1], name) == k1
    ensures name in c0[l := CountOf(c0, l) + 1] ==> k1 > 0
  {
    CountOfBump(c0, l, name);
  }

  lemma CountOfBump(counts: map<string, nat>, l: string, name: string)
    ensures CountOf(counts[l := CountOf(counts, l) + 1], name) == CountOf(counts, name) + (if l == name then 1 else 0)
    ensures name in counts[l := CountOf(counts, l) + 1] <==> name in counts || name == l
  {
  }

  lemma CountLabelLast(records: seq<OntRecord>, name: string)
    requires records != []
    ensures CountLabel(records, name)
            == CountLabel(records[..|records| - 1], name) + (if Label(records[|records| - 1].category) == name then 1 else 0)
  {
    SnocSplit(records);
    CountLabelAppend(records[..|records| - 1], records[|records| - 1], name);
  }

  lemma SnocSplit(s: seq<OntRecord>)
    requires s != []
    ensures s[..|s| - 1] + [s[|s| - 1]] == s
  {
  }

  lemma {:induction false} CountLabelAppend(records: seq<OntRecord>, r: OntRecord, name: string)
    ensures CountLabel(records + [r], name) == CountLabel(records, name) + (if Label(r.category) == name then 1 else 0)
    decreases |records|
  {
    if records == [] {
      assert [r][1..] == [];
    } else {
      CountLabelAppend(records[1..], r, name);
      assert (records + [r])[1..] == records[1..] + [r];
    }
  }

  /** The label test of the online sum: starts with "Online", or one of the two low-signal labels. */
  predicate CountsAsOnline(name: string) {
    StartsWith(name, "Online") || name == "Sinal Baixo/Crítico" || name == "Sinal Muito Baixo (Falha?)"
  }

  /** The online sum covers exactly the four categories of an online, registered or graded ONU. */
  lemma OnlineCategories(c: Category)
    ensures CountsAsOnline(Label(c)) <==>
              c in {OnlineSignalOk, OnlineSignalUnknown, LowCriticalSignal, VeryLowSignal}
  {
    match c
    case AwaitingProvisioning => DiffersAt(Label(c), "Online", 0);
    case Offline => DiffersAt(Label(c), "Online", 1);
    case Unknown => DiffersAt(Label(c), "Online", 0);
    case OnlineSignalOk => assert Label(c)[..6] == "Online";
    case OnlineSignalUnknown => assert Label(c)[..6] == "Online";
    case LowCriticalSignal =>
    case VeryLowSignal =>
  }

  /** A text that differs from `p` at a position both share does not start with `p`. */
  lemma DiffersAt(s: string, p: string, i: nat)
    requires i < |p| && i < |s| && s[i] != p[i]
    ensures !StartsWith(s, p)
  {
  }

  /** The display order of the seven categories. */
  const CategoryOrder: seq<Category> :=
    [OnlineSignalOk, LowCriticalSignal, VeryLowSignal, Offline, AwaitingProvisioning, OnlineSignalUnknown, Unknown]

  lemma CategoryOrderComplete(c: Category)
    ensures c in CategoryOrder
  {
  }

  lemma CategoryOrderDistinct()
    ensures DistinctCategories(CategoryOrder)
  {
  }

  /** The sum of the Counter over the online labels among `cats`. */
  function OnlineTotal(counts: map<string, nat>, cats: seq<Category>): nat
    decreases |cats|
  {
    if cats == [] then 0
    else (if CountsAsOnline(Label(cats[0])) then CountOf(counts, Label(cats[0])) else 0) + OnlineTotal(counts, cats[1..])
  }

  /** Records whose category counts as online. */
  function CountOnline(records: seq<OntRecord>): nat
    decreases |records|
  {
    if records == [] then 0
    else (if CountsAsOnline(Label(records[0].category)) then 1 else 0) + CountOnline(records[1..])
  }

  predicate DistinctCategories(cats: seq<Category>) {
    forall i, j :: 0 <= i < j < |cats| ==> cats[i] != cats[j]
  }

  /** One more record of category `c` adds one to the online sum iff `c` is an online category of `cats`. */
  lemma {:induction false} OnlineTotalBump(counts: map<string, nat>, cats: seq<Category>, c: Category)
    requires DistinctCategories(cats)
    ensures var l := Label(c);
            OnlineTotal(counts[l := CountOf(counts, l) + 1], cats)
              == OnlineTotal(counts, cats) + (if c in cats && CountsAsOnline(l) then 1 else 0)
    decreases |cats|
  {
    if cats != [] {
      OnlineTotalBump(counts, cats[1..], c);
      if cats[0] != c {
        assert Label(cats[0]) != Label(c) by {
          if Label(cats[0]) == Label(c) {
            LabelInjective(cats[0], c);
          }
        }
      } else {
        assert c !in cats[1..];
      }
    }
  }

  lemma {:induction false} CountOnlineAppend(records: seq<OntRecord>, r: OntRecord)
    ensures CountOnline(records + [r]) == CountOnline(records) + (if CountsAsOnline(Label(r.category)) then 1 else 0)
    decreases |records|
  {
    if records == [] {
      assert [r][1..] == [];
    } else {
      CountOnlineAppend(records[1..], r);
      assert (records + [r])[1..] == records[1..] + [r];
    }
  }

  /** Summing the Counter over the online labels counts the online records. */
  lemma {:induction false} OnlineTotalCounts(records: seq<OntRecord>)
    ensures OnlineTotal(CounterOf(records), CategoryOrder) == CountOnline(records)
    decreases |records|
  {
    if records != [] {
      var init, r := records[..|records| - 1], records[|records| - 1];
      assert records == init + [r];
      OnlineTotalCounts(init);
      OnlineTotalSnoc(init, r);
      CountOnlineAppend(init, r);
    }
  }

  /** One more record adds one to the online sum iff its category counts as online. */
  lemma OnlineTotalSnoc(init: seq<OntRecord>, r: OntRecord)
    ensures OnlineTotal(CounterOf(init + [r]), CategoryOrder)
              == OnlineTotal(CounterOf(init), CategoryOrder) + (if CountsAsOnline(Label(r.category)) then 1 else 0)
  {
    var counts := CounterOf(init);
    assert (init + [r])[..|init|] == init;
    assert CounterOf(init + [r]) == counts[Label(r.category) := CountOf(counts, Label(r.category)) + 1];
    CategoryOrderDistinct();
    OnlineTotalBump(counts, CategoryOrder, r.category);
    CategoryOrderComplete(r.category);
  }

  /** No record is both online and offline: online + offline never exceeds the total. */
  lemma {:induction false} OnlineOfflineBound(records: seq<OntRecord>)
    ensures CountOnline(records) + CountLabel(records, "Offline") <= |records|
    decreases |records|
  {
    if records != [] {
      OnlineOfflineBound(records[1..]);
      assert !CountsAsOnline("Offline") by {
        assert "Offline"[..6][1] != "Online"[1];
      }
    }
  }

  /** ordered_categories: (label, count) in the display order, zero counts dropped. */
  function Ordered(counts: map<string, nat>, cats: seq<Category>): (r: seq<(string, nat)>)
    decreases |cats|
  {
    if cats == [] then []
    else
      var l := Label(cats[0]);
      (if CountOf(counts, l) > 0 then [(l, CountOf(counts, l))] else []) + Ordered(counts, cats[1..])
  }

  /** A pair is listed iff it is a category of the order with its positive count. */
  lemma {:induction false} OrderedExact(counts: map<string, nat>, cats: seq<Category>, p: (string, nat))
    ensures p in Ordered(counts, cats) <==>
              (exists c :: c in cats && p == (Label(c), CountOf(counts, Label(c)))) && p.1 > 0
    decreases |cats|
  {
    if cats != [] {
      OrderedExact(counts, cats[1..], p);
      if p.1 > 0 && p == (Label(cats[0]), CountOf(counts, Label(cats[0]))) {
        assert p in Ordered(counts, cats);
      }
      if p in Ordered(counts, cats[1..]) {
        var c :| c in cats[1..] && p == (Label(c), CountOf(counts, Label(c)));
        assert c in cats;
      }
    }
  }

  /** What the dashboard template receives (besides the database rows and the logs). */
  datatype DashboardView = DashboardView(
    totalOnus: nat, onlineOnus: nat, offlineOnus: nat, categories: seq<(string, nat)>,
    onts: seq<OntRecord>, errorOntFetch: bool)

  /**
   * The counts of `index`. Only when both fetches succeeded is the Counter filled: with
   * an OLT error and a good list, the template gets every ONT and zero counts.
   */
  function DashboardOf(info: OltInfo, list: OntList): DashboardView {
    if list.OntListError? then DashboardView(0, 0, 0, [], [], true)
    else if info.OltInfoError? then DashboardView(|list.records|, 0, 0, [], list.records, false)
    else
      var counts := CounterOf(list.records);
      DashboardView(|list.records|, OnlineTotal(counts, CategoryOrder), CountOf(counts, "Offline"),
                    Ordered(counts, CategoryOrder), list.records, false)
  }

  /** With both fetches good: online and offline count the records of their categories. */
  lemma DashboardCounts(info: OltInfo, records: seq<OntRecord>)
    requires info.OltInfo?
    ensures var d := DashboardOf(info, OntList(records));
            d.totalOnus == |records| && d.onlineOnus == CountOnline(records)
            && d.offlineOnus == CountLabel(records, "Offline")
            && d.onlineOnus + d.offlineOnus <= d.totalOnus
            && forall p :: p in d.categories <==>
                 (exists c :: c in CategoryOrder && p == (Label(c), CountLabel(records, Label(c)))) && p.1 > 0
  {
    OnlineTotalCounts(records);
    CounterCounts(records, "Offline");
    OnlineOfflineBound(records);
    CategoriesCount(records);
  }

  /** The ordered categories are the non-zero record counts of the categories, in any order. */
  lemma CategoriesCount(records: seq<OntRecord>)
    ensures forall p :: p in Ordered(CounterOf(records), CategoryOrder) <==>
              (exists c :: c in CategoryOrder && p == (Label(c), CountLabel(records, Label(c)))) && p.1 > 0
  {
    var counts := CounterOf(records);
    forall p
      ensures p in Ordered(counts, CategoryOrder) <==>
                (exists c :: c in CategoryOrder && p == (Label(c), CountLabel(records, Label(c)))) && p.1 > 0
    {
      OrderedExact(counts, CategoryOrder, p);
      forall c | c in CategoryOrder
        ensures CountOf(counts, Label(c)) == CountLabel(records, Label(c))
      {
        CounterCounts(records, Label(c));
      }
    }
  }

  /** An OLT error alone shows every ONT, with every count at zero. */
  lemma DashboardOltErrorOnly(e: string, records: seq<OntRecord>)
    ensures DashboardOf(OltInfoError(e), OntList(records)) == DashboardView(|records|, 0, 0, [], records, false)
  {
  }

  /** The Counter loop of `index`. */
  method CountCategories(records: seq<OntRecord>) returns (counts: map<string, nat>)
    ensures counts == CounterOf(records)
  {
    counts := map[];
    for i := 0 to |records|
      invariant counts == CounterOf(records[..i])
    {
      assert records[..i + 1][..i] == records[..i];
      var category := Label(records[i].category);
      counts := counts[category := CountOf(counts, category) + 1];
    }
    assert records[..|records|] == records;
  }

  /** The online sum of `index`, over the categories the Counter can hold. */
  method SumOnline(counts: map<string, nat>) returns (online: nat)
    ensures online == OnlineTotal(counts, CategoryOrder)
  {
    online := 0;
    var cats := CategoryOrder;
    for i := |cats| downto 0
      invariant online == OnlineTotal(counts, cats[i..])
    {
      assert cats[i..][1..] == cats[i + 1..];
      var cat := Label(cats[i]);
      if CountsAsOnline(cat) {
        online := online + CountOf(counts, cat);
      }
    }
  }

  /** The list comprehension of ordered_categories. */
  method OrderCategories(counts: map<string, nat>) returns (ordered: seq<(string, nat)>)
    ensures ordered == Ordered(counts, CategoryOrder)
  {
    ordered := [];
    var cats := CategoryOrder;
    for i := |cats| downto 0
      invariant ordered == Ordered(counts, cats[i..])
    {
      assert cats[i..][1..] == cats[i + 1..];
      var cat := Label(cats[i]);
      if CountOf(counts, cat) > 0 {
        ordered := [(cat, CountOf(counts, cat))] + ordered;
      }
    }
  }

  // ---------------------------------------------------------------------------
  // The category filter of /api/onus
  // ---------------------------------------------------------------------------

  datatype OnusReply = Onus(onts: seq<OntRecord>) | OnusError(error: string)

  /** A filter that is absent, empty or "all" selects everything. */
  predicate SelectsAll(filter: Option<string>) {
    filter.None? || filter.value == "" || filter.value == "all"
  }

  function WithCategoryLabel(records: seq<OntRecord>, name: string): (r: seq<OntRecord>)
    decreases |records|
  {
    if records == [] then []
    else (if Label(records[0].category) == name then [records[0]] else []) + WithCategoryLabel(records[1..], name)
  }

  function FilterOnus(list: OntList, filter: Option<string>): OnusReply {
    if list.OntListError? then OnusError("Erro ao buscar ONUs: " + list.error)
    else if SelectsAll(filter) then Onus(list.records)
    else Onus(WithCategoryLabel(list.records, filter.value))
  }

  /** The filter keeps exactly the records of that category, each as often as it occurs. */
  lemma {:induction false} FilterExact(records: seq<OntRecord>, name: string, x: OntRecord)
    ensures multiset(WithCategoryLabel(records, name))[x] ==
              if Label(x.category) == name then multiset(records)[x] else 0
    decreases |records|
  {
    if records != [] {
      var r0, rest := records[0], records[1..];
      FilterExact(rest, name, x);
      assert records == [r0] + rest;
      assert multiset(records) == multiset([r0]) + multiset(rest);
      var w := WithCategoryLabel(records, name);
      if Label(r0.category) == name {
        assert w == [r0] + WithCategoryLabel(rest, name);
        assert multiset(w) == multiset([r0]) + multiset(WithCategoryLabel(rest, name));
      } else {
        assert w == WithCategoryLabel(rest, name);
      }
    }
  }

  /** Filtering twice by the same category is filtering once: the order is kept. */
  lemma {:induction false} FilterIdempotent(records: seq<OntRecord>, name: string)
    ensures WithCategoryLabel(WithCategoryLabel(records, name), name) == WithCategoryLabel(records, name)
    decreases |records|
  {
    if records != [] {
      FilterIdempotent(records[1..], name);
      var rest := WithCategoryLabel(records[1..], name);
      var w := WithCategoryLabel(records, name);
      if Label(records[0].category) == name {
        assert w == [records[0]] + rest;
        assert w[0] == records[0] && w[1..] == rest;
      } else {
        assert w == rest;
      }
    }
  }

  // ---------------------------------------------------------------------------
  // The ifIndex arithmetic of /api/authorize_ont
  // ---------------------------------------------------------------------------

  const BaseIfIndex: int := 16777216
  const SlotOffset: int := 1048576
  const PortOffset: int := 65536

  datatype PonLocation = PonLocation(slot: int, port: int, ont: int)

  /** Floor division and modulo by positive constants, as in Python. */
  function LocationOf(ifIndex: int): PonLocation {
    var rel := ifIndex - BaseIfIndex;
    PonLocation(rel / SlotOffset, (rel % SlotOffset) / PortOffset, (rel % PortOffset) / 1)
  }

  function IfIndexOf(loc: PonLocation): int {
    BaseIfIndex + loc.slot * SlotOffset + loc.port * PortOffset + loc.ont
  }

  /** Every ifIndex decomposes, with a port below 16 and an ONT id below 65536. */
  lemma LocationRoundTrip(ifIndex: int)
    ensures var loc := LocationOf(ifIndex);
            0 <= loc.port < 16 && 0 <= loc.ont < PortOffset && IfIndexOf(loc) == ifIndex
  {
    var rel := ifIndex - BaseIfIndex;
    var m := rel % SlotOffset;
    assert rel == (rel / SlotOffset) * SlotOffset + m;
    assert m == (m / PortOffset) * PortOffset + m % PortOffset;
    ModOfMod(rel);
  }

  /** rel mod 65536 is the low part of rel mod 1048576. */
  lemma ModOfMod(rel: int)
    ensures (rel % SlotOffset) % PortOffset == rel % PortOffset
  {
    var q := rel / SlotOffset;
    var m := rel % SlotOffset;
    assert rel == q * 16 * PortOffset + m;
    ModShift(m, q * 16);
  }

  lemma ModShift(m: int, k: int)
    ensures (k * PortOffset + m) % PortOffset == m % PortOffset
  {
    var r := m % PortOffset;
    var d := m / PortOffset;
    assert k * PortOffset + m == (k + d) * PortOffset + r;
  }

  /** A location with port below 16 and ONT id below 65536 is recovered from its ifIndex. */
  lemma IfIndexRoundTrip(loc: PonLocation)
    requires 0 <= loc.port < 16 && 0 <= loc.ont < PortOffset
    ensures LocationOf(IfIndexOf(loc)) == loc
  {
    var low := loc.port * PortOffset + loc.ont;
    assert 0 <= low < SlotOffset;
    var rel := IfIndexOf(loc) - BaseIfIndex;
    assert rel == loc.slot * SlotOffset + low;
    assert rel / SlotOffset == loc.slot && rel % SlotOffset == low;
    assert low / PortOffset == loc.port && low % PortOffset == loc.ont;
    ModOfMod(rel);
  }

  /** The CLI port "frame/slot/port", frame 0. */
  function CliPort(loc: PonLocation): string {
    "0/" + IntToString(loc.slot) + "/" + IntToString(loc.port)
  }

  /** The five commands of an authorization, in order. */
  function AuthorizationCommands(loc: PonLocation, serial: string, lineProfile: string, srvProfile: string, description: string)
    : (cmds: seq<string>)
  {
    ["config",
     "interface gpon " + CliPort(loc),
     "ont add " + IntToString(loc.ont) + " sn-auth " + serial + " omci ont-lineprofile-id " + lineProfile
       + " ont-srvprofile-id " + srvProfile + " desc \"" + description + "\"",
     "quit",
     "quit"]
  }

  /** Enter config, then the PON interface; add the ONT; leave both modes. */
  lemma AuthorizationCommandsShape(loc: PonLocation, serial: string, lp: string, sp: string, desc: string)
    ensures var cmds := AuthorizationCommands(loc, serial, lp, sp, desc);
            |cmds| == 5 && cmds[0] == "config" && cmds[3] == "quit" && cmds[4] == "quit"
            && StartsWith(cmds[1], "interface gpon 0/")
            && StartsWith(cmds[2], "ont add ") && Contains(cmds[2], " sn-auth " + serial + " omci ont-lineprofile-id " + lp)
  {
    var cmds := AuthorizationCommands(loc, serial, lp, sp, desc);
    var p := "ont add " + IntToString(loc.ont);
    var q := " sn-auth " + serial + " omci ont-lineprofile-id " + lp;
    var rest := " ont-srvprofile-id " + sp + " desc \"" + desc + "\"";
    assert cmds[2] == p + q + rest;
    MiddleSlice(p, q, rest);
    ContainsAt(p + q + rest, q, |p|);
  }

  /** The middle part of a three-part text is the slice at its offset. */
  lemma MiddleSlice(a: string, b: string, c: string)
    ensures (a + b + c)[|a|..|a| + |b|] == b
  {
    assert forall j :: 0 <= j < |b| ==> (a + b + c)[|a| + j] == b[j];
  }

  /** `sub` occurs at position k. */
  lemma {:induction false} ContainsAt(s: string, sub: string, k: nat)
    requires k + |sub| <= |s| && s[k..k + |sub|] == sub
    ensures Contains(s, sub)
    decreases k
  {
    if k > 0 {
      assert s[1..][k - 1..k - 1 + |sub|] == sub;
      ContainsAt(s[1..], sub, k - 1);
    }
  }

  // ---------------------------------------------------------------------------
  // The command loop
  // ---------------------------------------------------------------------------

  /** The pair execute_olt_command returns. */
  datatype Reply = Reply(output: Option<string>, error: Option<string>)

  /** The loop's accumulated output, its error, and every command sent, in order. */
  datatype LoopOutcome = LoopOutcome(fullOutput: string, finalError: Option<string>, sent: seq<string>)

  function OutputOf(r: Reply): string {
    if Truthy(r.output) then r.output.value + "\n" else ""
  }

  function CommandError(cmd: string, error: string): string {
    "Erro ao executar '" + cmd + "': " + error
  }

  /**
   * The loop without its pause, from the n-th call on: the first command that returns an
   * error is followed by two "quit"s and ends the loop.
   */
  function CommandLoop(commands: seq<string>, answer: nat -> Reply, n: nat): LoopOutcome
    decreases |commands|
  {
    if commands == [] then LoopOutcome("", None, [])
    else
      var r := answer(n);
      if Truthy(r.error) then
        LoopOutcome(OutputOf(r), Some(CommandError(commands[0], r.error.value)), [commands[0], "quit", "quit"])
      else
        var rest := CommandLoop(commands[1..], answer, n + 1);
        LoopOutcome(OutputOf(r) + rest.fullOutput, rest.finalError, [commands[0]] + rest.sent)
  }

  /** The loop sends every command when none fails. */
  lemma {:induction false} LoopWithoutErrors(commands: seq<string>, answer: nat -> Reply, n: nat)
    requires forall j :: n <= j < n + |commands| ==> !Truthy(answer(j).error)
    ensures CommandLoop(commands, answer, n).sent == commands
    ensures CommandLoop(commands, answer, n).finalError == None
    decreases |commands|
  {
    if commands != [] {
      LoopWithoutErrors(commands[1..], answer, n + 1);
      assert commands == [commands[0]] + commands[1..];
    }
  }

  /** The first failing command is the last one sent: then two "quit"s, and its error is reported. */
  lemma {:induction false} LoopStopsAtFirstError(commands: seq<string>, answer: nat -> Reply, n: nat, k: nat)
    requires k < |commands| && Truthy(answer(n + k).error)
    requires forall j :: n <= j < n + k ==> !Truthy(answer(j).error)
    ensures CommandLoop(commands, answer, n).sent == commands[..k + 1] + ["quit", "quit"]
    ensures CommandLoop(commands, answer, n).finalError == Some(CommandError(commands[k], answer(n + k).error.value))
    decreases k
  {
    if k > 0 {
      LoopStopsAtFirstError(commands[1..], answer, n + 1, k - 1);
      assert commands[..k + 1] == [commands[0]] + commands[1..][..k];
    }
  }

  /** Then(prefix, sent, o): the outcome `o` of the rest of the loop after what was already done. */
  function Then(output: string, sent: seq<string>, o: LoopOutcome): LoopOutcome {
    LoopOutcome(output + o.fullOutput, o.finalError, sent + o.sent)
  }

  lemma LoopStep(commands: seq<string>, answer: nat -> Reply, i: nat)
    requires i < |commands|
    ensures var r := answer(i);
            CommandLoop(commands[i..], answer, i) ==
              if Truthy(r.error) then
                LoopOutcome(OutputOf(r), Some(CommandError(commands[i], r.error.value)), [commands[i], "quit", "quit"])
              else Then(OutputOf(r), [commands[i]], CommandLoop(commands[i + 1..], answer, i + 1))
  {
    assert commands[i..][1..] == commands[i + 1..];
  }

  lemma ThenAssoc(o1: string, s1: seq<string>, o2: string, s2: seq<string>, x: LoopOutcome)
    ensures Then(o1, s1, Then(o2, s2, x)) == Then(o1 + o2, s1 + s2, x)
  {
    assert o1 + (o2 + x.fullOutput) == (o1 + o2) + x.fullOutput;
    assert s1 + (s2 + x.sent) == (s1 + s2) + x.sent;
  }

  /** One turn of the loop, from what was done before command i to what is done after it. */
  lemma LoopAdvance(commands: seq<string>, answer: nat -> Reply, i: nat, output0: string, sent0: seq<string>)
    requires i < |commands|
    requires CommandLoop(commands, answer, 0) == Then(output0, sent0, CommandLoop(commands[i..], answer, i))
    ensures var r := answer(i);
            CommandLoop(commands, answer, 0) ==
              if Truthy(r.error) then
                LoopOutcome(output0 + OutputOf(r), Some(CommandError(commands[i], r.error.value)),
                            sent0 + [commands[i], "quit", "quit"])
              else Then(output0 + OutputOf(r), sent0 + [commands[i]], CommandLoop(commands[i + 1..], answer, i + 1))
  {
    LoopStep(commands, answer, i);
    var r := answer(i);
    if !Truthy(r.error) {
      ThenAssoc(output0, sent0, OutputOf(r), [commands[i]], CommandLoop(commands[i + 1..], answer, i + 1));
    }
  }

  method RunCommands(commands: seq<string>, answer: nat -> Reply)
    returns (fullOutput: string, finalError: Option<string>, sent: seq<string>)
    ensures LoopOutcome(fullOutput, finalError, sent) == CommandLoop(commands, answer, 0)
  {
    fullOutput, finalError, sent := "", None, [];
    for i := 0 to |commands|
      invariant CommandLoop(commands, answer, 0) == Then(fullOutput, sent, CommandLoop(commands[i..], answer, i))
    {
      LoopAdvance(commands, answer, i, fullOutput, sent);
      ghost var output0, sent0 := fullOutput, sent;
      var cmd := commands[i];
      // the i-th call to execute_olt_command
      var reply := answer(i);
      sent := sent + [cmd];
      if Truthy(reply.output) {
        fullOutput := fullOutput + reply.output.value + "\n";
      }
      assert fullOutput == output0 + OutputOf(reply);
      if Truthy(reply.error) {
        finalError := Some(CommandError(cmd, reply.error.value));
        // the two cleanup calls; their replies are not used
        sent := sent + ["quit", "quit"];
        assert sent == sent0 + [cmd, "quit", "quit"];
        return;
      }
    }
    assert commands[|commands|..] == [];
  }

  /**
   * The loop as written: time.sleep is called after every command without error, and the
   * module never imports time, so that call raises NameError. None stands for that raise.
   */
  function CommandLoopAsWritten(commands: seq<string>, answer: nat -> Reply): Option<LoopOutcome> {
    if commands == [] then Some(LoopOutcome("", None, []))
    else if Truthy(answer(0).error) then Some(CommandLoop(commands, answer, 0))
    else None
  }

  /** As written, no authorization gets past its first command ("config"). */
  lemma AsWrittenStopsAfterFirstCommand(loc: PonLocation, serial: string, lp: string, sp: string, desc: string, answer: nat -> Reply)
    ensures var cmds := AuthorizationCommands(loc, serial, lp, sp, desc);
            var r := CommandLoopAsWritten(cmds, answer);
            (r.None? <==> !Truthy(answer(0).error))
            && (r.Some? ==> r.value.sent == ["config", "quit", "quit"])
  {
  }

  // ---------------------------------------------------------------------------
  // Classification of the output and the route
  // ---------------------------------------------------------------------------

  datatype Verdict = Authorized | OltReportedFailure | NoConfirmation

  /** Success words are looked for before failure words, ignoring ASCII case. */
  function Classify(fullOutput: string): Verdict {
    var low := Lower(fullOutput);
    if Contains(low, "success") || Contains(low, "operation successful") then Authorized
    else if Contains(low, "failure") || Contains(low, "error") then OltReportedFailure
    else NoConfirmation
  }

  /** "operation successful" contains "success": the second success test adds nothing. */
  lemma OperationSuccessfulRedundant(s: string)
    requires Contains(s, "operation successful")
    ensures Contains(s, "success")
  {
    ContainsAt("operation successful", "success", 10);
    ContainsTransitive(s, "operation successful", "success");
  }

  /** A success word wins even when an error word is also present. */
  lemma ClassifySuccessFirst(fullOutput: string)
    ensures Classify(fullOutput) == Authorized <==> Contains(Lower(fullOutput), "success")
    ensures Classify(fullOutput) == OltReportedFailure <==>
              !Contains(Lower(fullOutput), "success")
              && (Contains(Lower(fullOutput), "failure") || Contains(Lower(fullOutput), "error"))
  {
    if Contains(Lower(fullOutput), "operation successful") {
      OperationSuccessfulRedundant(Lower(fullOutput));
    }
  }

  /** A JSON value as the route reads it. */
  datatype Json = JNull | JInt(i: int) | JText(s: string)

  predicate JsonTruthy(j: Json) {
    match j
    case JNull => false
    case JInt(i) => i != 0
    case JText(s) => s != ""
  }

  /** Python's int() of a JSON value; None is the ValueError. */
  function JsonInt(j: Json): Option<int> {
    match j
    case JNull => None
    case JInt(i) => Some(i)
    case JText(s) => ParseInt(s)
  }

  /**
   * The request body (None for a missing or empty body). Absent optional members are
   * None; the profile ids are given as the text their formatting produces.
   */
  datatype AuthorizeRequest = AuthorizeRequest(
    ifIndex: Json, serialNumber: string, description: Option<string>,
    lineProfileId: Option<string>, srvProfileId: Option<string>)

  datatype AuthorizeReply =
    | InvalidRequest                                     // 400
    | MissingFields                                      // 400
    | IfIndexError                                       // 500
    | CommandFailed(error: string, output: string)      // 500
    | Verdict(verdict: Verdict, output: string)          // 200, 500, 200

  function StatusCode(r: AuthorizeReply): int {
    match r
    case InvalidRequest => 400
    case MissingFields => 400
    case IfIndexError => 500
    case CommandFailed(_, _) => 500
    case Verdict(v, _) => if v == OltReportedFailure then 500 else 200
  }

  const DefaultDescription: string := "Autorizado via OLT Manager"

  /** The commands the route would run for a well-formed request, or the reply that stops it before. */
  function PlanAuthorization(req: Option<AuthorizeRequest>): Result
  {
    if req.None? then Stop(InvalidRequest)
    else
      var q := req.value;
      if !JsonTruthy(q.ifIndex) || q.serialNumber == "" then Stop(MissingFields)
      else
        match JsonInt(q.ifIndex)
        case None => Stop(IfIndexError)
        case Some(i) =>
          Run(AuthorizationCommands(LocationOf(i), q.serialNumber, q.lineProfileId.GetOr("1"),
                                    q.srvProfileId.GetOr("1"), q.description.GetOr(DefaultDescription)))
  }

  datatype Result = Stop(reply: AuthorizeReply) | Run(commands: seq<string>)

  /** The reply once the commands ran. */
  function ReplyOf(o: LoopOutcome): AuthorizeReply {
    if o.finalError.Some? then CommandFailed(o.finalError.value, o.fullOutput)
    else Verdict(Classify(o.fullOutput), o.fullOutput)
  }

  /** api_authorize_ont's reply and the commands it sent. */
  function Authorize(req: Option<AuthorizeRequest>, answer: nat -> Reply): (AuthorizeReply, seq<string>) {
    match PlanAuthorization(req)
    case Stop(r) => (r, [])
    case Run(cmds) =>
      var o := CommandLoop(cmds, answer, 0);
      (ReplyOf(o), o.sent)
  }

  /** The ONT list is invalidated after a success or an unconfirmed run, not after a reported failure. */
  function AfterAuthorize(c: CacheState, r: AuthorizeReply): CacheState {
    if r.Verdict? && r.verdict != OltReportedFailure then c.(ontList := None, lastFetch := None) else c
  }

  /** Malformed requests send nothing; a full run sends the five commands; an error ends the run. */
  lemma AuthorizeOutcomes(req: Option<AuthorizeRequest>, answer: nat -> Reply)
    ensures var (reply, sent) := Authorize(req, answer);
            (req.None? ==> reply == InvalidRequest && sent == [])
            && (req.Some? && (!JsonTruthy(req.value.ifIndex) || req.value.serialNumber == "") ==>
                  reply == MissingFields && sent == [])
            && (PlanAuthorization(req).Run? && (forall j :: 0 <= j < 5 ==> !Truthy(answer(j).error)) ==>
                  reply.Verdict? && sent == PlanAuthorization(req).commands)
            && (reply.CommandFailed? ==> |sent| >= 3 && sent[|sent| - 2..] == ["quit", "quit"])
  {
    match PlanAuthorization(req)
    case Stop(_) =>
    case Run(cmds) =>
      if forall j :: 0 <= j < 5 ==> !Truthy(answer(j).error) {
        LoopWithoutErrors(cmds, answer, 0);
      }
      var o := CommandLoop(cmds, answer, 0);
      if o.finalError.Some? {
        LoopErrorSent(cmds, answer, 0);
      }
  }

  /** A loop that reports an error ended with the command and two "quit"s. */
  lemma {:induction false} LoopErrorSent(commands: seq<string>, answer: nat -> Reply, n: nat)
    requires CommandLoop(commands, answer, n).finalError.Some?
    ensures var s := CommandLoop(commands, answer, n).sent; |s| >= 3 && s[|s| - 2..] == ["quit", "quit"]
    decreases |commands|
  {
    if !Truthy(answer(n).error) {
      LoopErrorSent(commands[1..], answer, n + 1);
      var s := CommandLoop(commands[1..], answer, n + 1).sent;
      assert ([commands[0]] + s)[|s| + 1 - 2..] == s[|s| - 2..];
    }
  }

  /** Only the two accepting verdicts invalidate the cache; the next request then fetches. */
  lemma AuthorizeInvalidates(c: CacheState, r: AuthorizeReply, now: int, fi: OltInfo, fl: OntList)
    ensures (r.Verdict? && r.verdict != OltReportedFailure) ==> Serve(AfterAuthorize(c, r), now, fi, fl).fetched
    ensures !(r.Verdict? && r.verdict != OltReportedFailure) ==> AfterAuthorize(c, r) == c
  {
  }

  // ---------------------------------------------------------------------------
  // The routes over the shared cache
  // ---------------------------------------------------------------------------

  /** The cache after `index`: an erroring ONT list is replaced by an empty list. */
  function AfterIndex(s: Served): CacheState {
    if s.list.OntListError? then s.state.(ontList := Some(OntList([]))) else s.state
  }

  /**
   * `index` stores [] for an erroring list: for the rest of the minute an empty list is
   * served as if it were valid, and the OLT info is served with it.
   */
  lemma EmptyListServedAfterError(c: CacheState, t0: int, now: int, fi0: OltInfo, e: string, fi: OltInfo, fl: OntList)
    requires !CacheHit(c, t0) && t0 <= now < t0 + CacheTtl
    ensures var s1 := Serve(AfterIndex(Serve(c, t0, fi0, OntListError(e))), now, fi, fl);
            !s1.fetched && s1.list == OntList([]) && s1.info == fi0
  {
  }

  /** _snmp_cache: the three entries shared by every request. */
  class PollCache {
    var oltInfo: Option<OltInfo>
    var ontList: Option<OntList>
    var lastFetch: Option<int>

    function State(): CacheState
      reads this
    {
      CacheState(oltInfo, ontList, lastFetch)
    }

    constructor ()
      ensures State() == EmptyCache
    {
      oltInfo, ontList, lastFetch := None, None, None;
    }

    /** _get_cached_snmp_data */
    method GetCachedSnmpData(now: int, fetchedInfo: OltInfo, fetchedList: OntList)
      returns (info: OltInfo, list: OntList, fetched: bool)
      modifies this
      ensures Served(State(), info, list, fetched) == Serve(old(State()), now, fetchedInfo, fetchedList)
    {
      var cacheValid := false;
      if lastFetch.Some? {
        if now - lastFetch.value < CacheTtl {
          cacheValid := true;
        }
      }
      if cacheValid && oltInfo.Some? && ontList.Some? {
        return oltInfo.value, ontList.value, false;
      }
      info, list := fetchedInfo, fetchedList;
      oltInfo, ontList, lastFetch := Some(info), Some(list), Some(now);
      fetched := true;
    }

    /** index: the counts of the dashboard. */
    method Index(now: int, fetchedInfo: OltInfo, fetchedList: OntList) returns (view: DashboardView)
      modifies this
      ensures var s := Serve(old(State()), now, fetchedInfo, fetchedList);
              State() == AfterIndex(s) && view == DashboardOf(s.info, s.list)
    {
      var info, list, _ := GetCachedSnmpData(now, fetchedInfo, fetchedList);
      if list.OntListError? {
        ontList := Some(OntList([]));
        return DashboardView(0, 0, 0, [], [], true);
      }
      if info.OltInfoError? {
        return DashboardView(|list.records|, 0, 0, [], list.records, false);
      }
      var counts := CountCategories(list.records);
      var online := SumOnline(counts);
      var ordered := OrderCategories(counts);
      view := DashboardView(|list.records|, online, CountOf(counts, "Offline"), ordered, list.records, false);
    }

    /** api_onus */
    method ApiOnus(now: int, fetchedInfo: OltInfo, fetchedList: OntList, filter: Option<string>)
      returns (reply: OnusReply)
      modifies this
      ensures var s := Serve(old(State()), now, fetchedInfo, fetchedList);
              State() == s.state && reply == FilterOnus(s.list, filter)
    {
      var _, list, _ := GetCachedSnmpData(now, fetchedInfo, fetchedList);
      if list.OntListError? {
        return OnusError("Erro ao buscar ONUs: " + list.error);
      }
      if !SelectsAll(filter) {
        var filtered := FilterRecords(list.records, filter.value);
        return Onus(filtered);
      }
      reply := Onus(list.records);
    }

    /** api_authorize_ont, with the pause of the loop left out. */
    method ApiAuthorizeOnt(req: Option<AuthorizeRequest>, answer: nat -> Reply)
      returns (reply: AuthorizeReply, sent: seq<string>)
      modifies this
      ensures (reply, sent) == Authorize(req, answer)
      ensures State() == AfterAuthorize(old(State()), reply)
    {
      var plan := PlanAuthorization(req);
      if plan.Stop? {
        return plan.reply, [];
      }
      var fullOutput, finalError;
      fullOutput, finalError, sent := RunCommands(plan.commands, answer);
      if finalError.Some? {
        return CommandFailed(finalError.value, fullOutput), sent;
      }
      var verdict := Classify(fullOutput);
      if verdict != OltReportedFailure {
        ontList, lastFetch := None, None;
      }
      reply := Verdict(verdict, fullOutput);
    }

    /** refresh_data */
    method RefreshData()
      modifies this
      ensures State() == EmptyCache
    {
      oltInfo, ontList, lastFetch := None, None, None;
    }
  }

  /** The list comprehension of api_onus. */
  method FilterRecords(records: seq<OntRecord>, name: string) returns (filtered: seq<OntRecord>)
    ensures filtered == WithCategoryLabel(records, name)
  {
    filtered := [];
    for i := |records| downto 0
      invariant filtered == WithCategoryLabel(records[i..], name)
    {
      assert records[i..][1..] == records[i + 1..];
      if Label(records[i].category) == name {
        filtered := [records[i]] + filtered;
      }
    }
  }
}
