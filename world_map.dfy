/** The world map view: the VMs grouped into the five fixed regions, the
    colour of each region and of its marker, the continent fills, and the
    markers and cards shown for the regions that hold VMs. */
module WorldMap {
  import opened VmModel
  import opened Seqs
  import Text

  datatype Point = Point(x: int, y: int)

  /** A fixed region of the map before any VM is grouped into it. */
  datatype RegionInfo = RegionInfo(name: string, country: string, coordinates: Point)

  const Regions: seq<RegionInfo> := [
    RegionInfo("US East (N. Virginia)", "USA", Point(200, 150)),
    RegionInfo("US West (Oregon)", "USA", Point(120, 130)),
    RegionInfo("EU West (Ireland)", "Ireland", Point(420, 120)),
    RegionInfo("EU Central (Frankfurt)", "Germany", Point(460, 130)),
    RegionInfo("Asia Pacific (Tokyo)", "Japan", Point(720, 140))
  ]

  /** A region with the VMs grouped into it. */
  datatype RegionData = RegionData(
    name: string,
    country: string,
    coordinates: Point,
    vmCount: nat,
    status: seq<Status>,
    vms: seq<VM>)

  function InRegion(name: string): VM -> bool {
    (v: VM) => v.region == name
  }

  function IsRunningStatus(): Status -> bool {
    (s: Status) => s == Running
  }

  /** `vms.map((vm) => vm.status)`. */
  function Statuses(vms: seq<VM>): (r: seq<Status>)
    ensures |r| == |vms|
    ensures forall i :: 0 <= i < |vms| ==> r[i] == vms[i].status
  {
    seq(|vms|, i requires 0 <= i < |vms| => vms[i].status)
  }

  /** One region of `regionData`: it keeps the fixed region's name, country
      and position; its VMs are exactly the input's VMs of that region name,
      each as often as in the input, and none of another region; its count
      and status list describe those VMs. That the list keeps the input's
      order is `GroupKeepsInputOrder`. */
  function Group(info: RegionInfo, vms: seq<VM>): (d: RegionData)
    ensures d.name == info.name && d.country == info.country && d.coordinates == info.coordinates
    ensures forall v :: v in d.vms <==> v in vms && v.region == info.name
    ensures forall v :: multiset(d.vms)[v] == if v.region == info.name then multiset(vms)[v] else 0
    ensures WellFormed(d) && d.vmCount == |d.vms| <= |vms|
  {
    var regionVMs := Filter(vms, InRegion(info.name));
    RegionFilter(vms, info.name);
    RegionData(info.name, info.country, info.coordinates, |regionVMs|, Statuses(regionVMs), regionVMs)
  }

  /** The VMs of one region name: exactly the input's VMs with that name,
      each as often as in the input. */
  lemma RegionFilter(vms: seq<VM>, name: string)
    ensures forall v :: v in Filter(vms, InRegion(name)) <==> v in vms && v.region == name
    ensures forall v :: multiset(Filter(vms, InRegion(name)))[v] == if v.region == name then multiset(vms)[v] else 0
  {
    forall v ensures v in Filter(vms, InRegion(name)) <==> v in vms && v.region == name {
      FilterMember(vms, InRegion(name), v);
    }
    FilterMultiset(vms, InRegion(name));
  }

  /** A region's list follows the input's order: grouping a concatenation
      groups each part and joins the results, a single VM of the region gives
      itself and one of another region nothing, and no VMs give none. These
      three facts fix the list: it is the input with the other regions' VMs
      taken out, in input order. */
  lemma GroupKeepsInputOrder(info: RegionInfo, a: seq<VM>, b: seq<VM>, v: VM)
    ensures Group(info, a + b).vms == Group(info, a).vms + Group(info, b).vms
    ensures Group(info, [v]).vms == if v.region == info.name then [v] else []
    ensures Group(info, []).vms == []
  {
    FilterConcat(a, b, InRegion(info.name));
    assert [v][1..] == [];
  }

  /** Each region of a list grouped over the same VMs, in list order. */
  function GroupAll(infos: seq<RegionInfo>, vms: seq<VM>): (r: seq<RegionData>)
    ensures |r| == |infos|
    ensures forall i :: 0 <= i < |infos| ==> r[i] == Group(infos[i], vms)
    decreases |infos|
  {
    if infos == [] then [] else [Group(infos[0], vms)] + GroupAll(infos[1..], vms)
  }

  /** `regionData`: the five regions in their fixed order. */
  function RegionsData(vms: seq<VM>): seq<RegionData> {
    GroupAll(Regions, vms)
  }

  /** A region's data as grouping builds it: the count is the length of the
      status list, which lists the statuses of its VMs. */
  predicate WellFormed(d: RegionData) {
    d.vmCount == |d.status| && d.status == Statuses(d.vms)
  }

  // ---- Colours ----

  /** The colours of the map, by their Tailwind names. */
  datatype Colour = Gray | Green | Yellow | Red | Blue | Orange

  /** The hex code the map draws a colour with. */
  function Hex(c: Colour): (h: string)
    ensures |h| == 7 && h[0] == '#'
  {
    match c
    case Gray => "#6b7280"
    case Green => "#22c55e"
    case Yellow => "#eab308"
    case Red => "#ef4444"
    case Blue => "#3b82f6"
    case Orange => "#f97316"
  }

  /** Distinct colours have distinct codes. */
  lemma HexInjective(c: Colour, d: Colour)
    ensures c != d ==> Hex(c) != Hex(d)
  {
    if c != d {
      assert Hex(c)[1..3] != Hex(d)[1..3] || Hex(c)[3..] != Hex(d)[3..];
    }
  }

  /** `getStatusColor`: a different colour for each status, never the gray of
      an empty region. The gray default of the source cannot be reached by a
      value of type Status. */
  function GetStatusColor(s: Status): (c: Colour)
    ensures c != Gray
    ensures forall t: Status :: t != s ==> StatusColour(t) != c
  {
    StatusColour(s)
  }

  function StatusColour(s: Status): Colour {
    match s
    case Running => Green
    case Idling => Yellow
    case Terminated => Red
    case Starting => Blue
    case Stopping => Orange
  }

  /** `getRegionColor`. */
  function GetRegionColor(d: RegionData): Colour {
    if d.vmCount == 0 then Gray
    else
      var hasRunning := Running in d.status;
      var hasTerminated := Terminated in d.status;
      if hasRunning && !hasTerminated then Green
      else if hasTerminated && !hasRunning then Red
      else Yellow
  }

  /** The number of Running entries of a status list. */
  function RunningIn(status: seq<Status>): nat {
    |Filter(status, IsRunningStatus())|
  }

  /** `getMarkerColor`. */
  function GetMarkerColor(d: RegionData): Colour {
    if d.vmCount == 0 then Gray
    else
      var runningCount := RunningIn(d.status);
      if runningCount == d.vmCount then Green
      else if runningCount == 0 then Red
      else Yellow
  }

  /** Some VM of the named region has status s. */
  predicate SomeWith(vms: seq<VM>, name: string, s: Status) {
    exists i :: 0 <= i < |vms| && vms[i].region == name && vms[i].status == s
  }

  /** A grouped region's colour read off the input list: gray when no VM is in
      the region; green when one of its VMs runs and none is terminated; red
      when one is terminated and none runs; yellow otherwise. */
  lemma {:induction false} RegionColorMeaning(info: RegionInfo, vms: seq<VM>)
    ensures var c := GetRegionColor(Group(info, vms));
            var running := SomeWith(vms, info.name, Running);
            var terminated := SomeWith(vms, info.name, Terminated);
            var empty := forall i :: 0 <= i < |vms| ==> vms[i].region != info.name;
            (c == Gray <==> empty) &&
            (c == Green <==> running && !terminated) &&
            (c == Red <==> terminated && !running) &&
            (c == Yellow <==> !empty && (running <==> terminated))
  {
    StatusInRegion(info, vms, Running);
    StatusInRegion(info, vms, Terminated);
    RegionEmpty(info, vms);
    var d := Group(info, vms);
    if SomeWith(vms, info.name, Running) || SomeWith(vms, info.name, Terminated) {
      assert d.vmCount != 0;
    }
  }

  /** A status occurs in a grouped region exactly when a VM of that region has it. */
  lemma StatusInRegion(info: RegionInfo, vms: seq<VM>, s: Status)
    ensures s in Group(info, vms).status <==> SomeWith(vms, info.name, s)
  {
    assert Group(info, vms).status == Statuses(Filter(vms, InRegion(info.name)));
    StatusInFilter(vms, info.name, s);
  }

  lemma StatusInFilter(vms: seq<VM>, name: string, s: Status)
    ensures s in Statuses(Filter(vms, InRegion(name))) <==> SomeWith(vms, name, s)
  {
    var f := Filter(vms, InRegion(name));
    var st := Statuses(f);
    if s in st {
      var k :| 0 <= k < |st| && st[k] == s;
      StatusFromRegion(vms, name, f[k]);
    }
    if SomeWith(vms, name, s) {
      var i :| 0 <= i < |vms| && vms[i].region == name && vms[i].status == s;
      FilterMember(vms, InRegion(name), vms[i]);
      var k := IndexOf(f, vms[i]);
      assert st[k] == s;
    }
  }

  /** A VM of a region's filtered list is a VM of the input with that region. */
  lemma StatusFromRegion(vms: seq<VM>, name: string, v: VM)
    requires v in Filter(vms, InRegion(name))
    ensures exists i :: 0 <= i < |vms| && vms[i].region == name && vms[i].status == v.status
  {
    FilterMember(vms, InRegion(name), v);
    var i :| 0 <= i < |vms| && vms[i] == v;
    assert vms[i].region == name && vms[i].status == v.status;
  }

  /** A position of a member of a list. */
  lemma IndexOf(f: seq<VM>, v: VM) returns (k: nat)
    requires v in f
    ensures k < |f| && f[k] == v
  {
    k :| 0 <= k < |f| && f[k] == v;
  }

  /** A grouped region is empty exactly when no VM carries its name. */
  lemma RegionEmpty(info: RegionInfo, vms: seq<VM>)
    ensures Group(info, vms).vmCount == 0 <==> forall i :: 0 <= i < |vms| ==> vms[i].region != info.name
  {
    FilterEmpty(vms, InRegion(info.name));
  }

  /** A region's marker colour: gray when the region is empty, green when every
      one of its VMs runs, red when none does, yellow when some do and some do not. */
  lemma {:induction false} MarkerColorMeaning(d: RegionData)
    requires WellFormed(d)
    ensures var c := GetMarkerColor(d);
            var allRun := forall i :: 0 <= i < |d.vms| ==> d.vms[i].status == Running;
            var noneRuns := forall i :: 0 <= i < |d.vms| ==> d.vms[i].status != Running;
            (c == Gray <==> |d.vms| == 0) &&
            (c == Green <==> |d.vms| > 0 && allRun) &&
            (c == Red <==> |d.vms| > 0 && noneRuns) &&
            (c == Yellow <==> !allRun && !noneRuns)
  {
    FilterFull(d.status, IsRunningStatus());
    FilterEmpty(d.status, IsRunningStatus());
    assert forall i :: 0 <= i < |d.vms| ==> d.status[i] == d.vms[i].status;
  }

  /** The two colour rules agree on empty regions and on fully running ones;
      a red marker never sits on a green region. */
  lemma {:induction false} MarkerAgreesWithRegion(d: RegionData)
    requires WellFormed(d)
    ensures GetMarkerColor(d) == Gray <==> GetRegionColor(d) == Gray
    ensures GetMarkerColor(d) == Green ==> GetRegionColor(d) == Green
    ensures GetMarkerColor(d) == Red ==> GetRegionColor(d) != Green
  {
    MarkerColorMeaning(d);
    if GetMarkerColor(d) == Green {
      assert d.status[0] == Running;
      assert forall i :: 0 <= i < |d.status| ==> d.status[i] == d.vms[i].status;
    }
    if GetMarkerColor(d) == Red {
      assert forall i :: 0 <= i < |d.status| ==> d.status[i] == d.vms[i].status;
    }
  }

  // ---- Counting ----

  /** The total of the vmCounts of the regions of the given names. */
  function CountIn(names: seq<string>, vms: seq<VM>): nat
    decreases |names|
  {
    if names == [] then 0 else |Filter(vms, InRegion(names[0]))| + CountIn(names[1..], vms)
  }

  function InSome(names: seq<string>): VM -> bool {
    (v: VM) => v.region in names
  }

  predicate Distinct(names: seq<string>) {
    forall i, j :: 0 <= i < j < |names| ==> names[i] != names[j]
  }

  /** How many of the names equal r. */
  function Hits(names: seq<string>, r: string): nat
    decreases |names|
  {
    if names == [] then 0 else (if names[0] == r then 1 else 0) + Hits(names[1..], r)
  }

  lemma {:induction false} HitsDistinct(names: seq<string>, r: string)
    requires Distinct(names)
    ensures Hits(names, r) == if r in names then 1 else 0
    decreases |names|
  {
    if names != [] {
      HitsDistinct(names[1..], r);
      assert r in names <==> names[0] == r || r in names[1..];
      if names[0] == r {
        assert forall j :: 0 <= j < |names[1..]| ==> names[1..][j] == names[j + 1];
      }
    }
  }

  lemma {:induction false} CountInCons(names: seq<string>, v: VM, rest: seq<VM>)
    ensures CountIn(names, [v] + rest) == Hits(names, v.region) + CountIn(names, rest)
    decreases |names|
  {
    assert ([v] + rest)[1..] == rest;
    if names != [] {
      CountInCons(names[1..], v, rest);
    }
  }

  /** Grouping by distinct names counts every VM whose region is one of the
      names exactly once, and no other VM. */
  lemma {:induction false} CountInIsListed(names: seq<string>, vms: seq<VM>)
    requires Distinct(names)
    ensures CountIn(names, vms) == |Filter(vms, InSome(names))|
    decreases |vms|
  {
    if vms == [] {
      assert CountIn(names, []) == 0 by { CountInNil(names); }
    } else {
      var v, rest := vms[0], vms[1..];
      assert vms == [v] + rest;
      CountInCons(names, v, rest);
      HitsDistinct(names, v.region);
      CountInIsListed(names, rest);
    }
  }

  lemma {:induction false} CountInNil(names: seq<string>)
    ensures CountIn(names, []) == 0
    decreases |names|
  {
    if names != [] {
      CountInNil(names[1..]);
    }
  }

  /** The sum of the vmCounts of the five regions. */
  function TotalCount(rd: seq<RegionData>): nat
    decreases |rd|
  {
    if rd == [] then 0 else rd[0].vmCount + TotalCount(rd[1..])
  }

  function Names(infos: seq<RegionInfo>): (names: seq<string>)
    ensures |names| == |infos|
    ensures forall i :: 0 <= i < |infos| ==> names[i] == infos[i].name
    decreases |infos|
  {
    if infos == [] then [] else [infos[0].name] + Names(infos[1..])
  }

  lemma {:induction false} TotalIsCountIn(infos: seq<RegionInfo>, vms: seq<VM>)
    ensures TotalCount(GroupAll(infos, vms)) == CountIn(Names(infos), vms)
    decreases |infos|
  {
    if infos != [] {
      TotalIsCountIn(infos[1..], vms);
      assert GroupAll(infos, vms)[1..] == GroupAll(infos[1..], vms);
      assert Names(infos)[1..] == Names(infos[1..]);
    }
  }

  /** The region names of the map are the five fixed names, all distinct. */
  lemma RegionNamesOfMap()
    ensures Names(Regions) == RegionNames && Distinct(RegionNames)
  {
    assert forall i :: 0 <= i < |Regions| ==> Names(Regions)[i] == RegionNames[i];
  }

  /** The five vmCounts add up to the number of VMs whose region is one of the
      five names, so never exceed the total. */
  lemma {:induction false} GroupingCounts(vms: seq<VM>)
    ensures TotalCount(RegionsData(vms)) == |Filter(vms, InSome(RegionNames))| <= |vms|
  {
    RegionNamesOfMap();
    TotalIsCountIn(Regions, vms);
    CountInIsListed(RegionNames, vms);
  }

  /** A VM whose region is not one of the five is in no region's list. */
  lemma UnlistedInNoRegion(vms: seq<VM>, i: nat, k: nat)
    requires i < |vms| && k < |Regions| && vms[i].region !in RegionNames
    ensures vms[i] !in RegionsData(vms)[k].vms
  {
    RegionNamesOfMap();
    assert Regions[k].name == RegionNames[k];
    NotInGroup(Regions[k], vms, vms[i]);
  }

  lemma NotInGroup(info: RegionInfo, vms: seq<VM>, v: VM)
    requires v.region != info.name
    ensures v !in Group(info, vms).vms
  {
  }

  // ---- Markers, cards and labels ----

  function HasVMs(): RegionData -> bool {
    (d: RegionData) => d.vmCount > 0
  }

  /** `regionData.filter((region) => region.vmCount > 0)`: the regions that get a
      marker and a card. */
  function Visible(rd: seq<RegionData>): seq<RegionData> {
    Filter(rd, HasVMs())
  }

  /** Markers and cards: every shown region holds VMs, every region holding VMs
      is shown, two shown regions keep their fixed order, and with no VM at all
      nothing is shown. */
  lemma {:induction false} VisibleRegions(vms: seq<VM>)
    ensures var rd := RegionsData(vms);
            (forall i :: 0 <= i < |Visible(rd)| ==> Visible(rd)[i].vmCount > 0) &&
            (forall k :: 0 <= k < |rd| ==> (rd[k] in Visible(rd) <==> rd[k].vmCount > 0)) &&
            (vms == [] ==> Visible(rd) == [])
  {
    var rd := RegionsData(vms);
    forall k | 0 <= k < |rd| ensures rd[k] in Visible(rd) <==> rd[k].vmCount > 0 {
      FilterMember(rd, HasVMs(), rd[k]);
    }
    if vms == [] {
      forall k | 0 <= k < |rd| ensures !HasVMs()(rd[k]) {
        RegionEmpty(Regions[k], vms);
      }
      FilterKeepsNone(rd, HasVMs());
    }
  }

  /** Two shown regions appear in the fixed order of the five regions. */
  lemma VisibleKeepsOrder(vms: seq<VM>, i: nat, j: nat) returns (a: nat, b: nat)
    requires i < j < |Visible(RegionsData(vms))|
    ensures a < b < |Regions|
    ensures Visible(RegionsData(vms))[i] == Group(Regions[a], vms)
    ensures Visible(RegionsData(vms))[j] == Group(Regions[b], vms)
  {
    a, b := FilterKeepsOrder(RegionsData(vms), HasVMs(), i, j);
  }

  /** "N VM" or "N VMs": the count, then "VM", plural unless the count is 1. */
  function CountLabel(n: nat): string {
    Text.NatToString(n) + " VM" + (if n != 1 then "s" else "")
  }

  /** The label reads back as its count and says "VMs" exactly when the count is not 1. */
  lemma CountLabelSpec(n: nat)
    ensures var l := CountLabel(n);
            Text.SplitFirst(l, ' ') == Text.Found(Text.NatToString(n), if n != 1 then "VMs" else "VM") &&
            Text.ParseDigits(Text.NatToString(n)) == n &&
            (l[|l| - 1] == 's' <==> n != 1)
  {
    var digits := Text.NatToString(n);
    assert ' ' !in digits by {
      assert forall i :: 0 <= i < |digits| ==> Text.IsDigit(digits[i]);
    }
    assert CountLabel(n) == digits + [' '] + (if n != 1 then "VMs" else "VM");
    Text.SplitFirstAt(digits, ' ', if n != 1 then "VMs" else "VM");
    Text.ParseNatToString(n);
  }

  /** The running figure shown beside a region never exceeds its vmCount. */
  lemma RunningAtMostCount(d: RegionData)
    requires WellFormed(d)
    ensures RunningIn(d.status) <= d.vmCount
  {
  }

  // ---- Continent fills ----

  /** How a continent is drawn: its fill and whether it is highlighted
      (opacity 0.6 rather than 0.3). */
  datatype Fill = Fill(color: Colour, highlighted: bool)

  function AnyIn(rd: seq<RegionData>, countries: set<string>): bool {
    exists i :: 0 <= i < |rd| && rd[i].country in countries && rd[i].vmCount > 0
  }

  /** The first region of a country, as `regionData.find` gives it. */
  function FirstOf(rd: seq<RegionData>, country: string): (k: nat)
    ensures k <= |rd|
    ensures k < |rd| ==> rd[k].country == country
    ensures forall j :: 0 <= j < k ==> rd[j].country != country
    decreases |rd|
  {
    if rd == [] then 0 else if rd[0].country == country then 0 else 1 + FirstOf(rd[1..], country)
  }

  /** North America and Asia take the colour of the first region of their
      country, once any region of that country holds VMs; Europe is plain
      green once either European region holds VMs. */
  function ContinentFills(rd: seq<RegionData>): (f: seq<Fill>)
    requires |rd| == |Regions|
    requires forall i :: 0 <= i < |rd| ==> rd[i].country == Regions[i].country
    ensures |f| == 6
    ensures forall i :: 3 <= i < 6 ==> f[i] == Fill(Gray, false)
  {
    var usa := AnyIn(rd, {"USA"});
    var europe := AnyIn(rd, {"Ireland", "Germany"});
    var japan := AnyIn(rd, {"Japan"});
    [ Fill(if usa then GetRegionColor(rd[FirstOf(rd, "USA")]) else Gray, usa),
      Fill(if europe then Green else Gray, europe),
      Fill(if japan then GetRegionColor(rd[FirstOf(rd, "Japan")]) else Gray, japan),
      Fill(Gray, false), Fill(Gray, false), Fill(Gray, false) ]
  }

  /** The grouped regions satisfy what the continent fills expect. */
  lemma RegionsDataShape(vms: seq<VM>)
    ensures |RegionsData(vms)| == |Regions|
    ensures forall i :: 0 <= i < |Regions| ==> RegionsData(vms)[i].country == Regions[i].country
  {
  }

  /** As written, North America is coloured by the N. Virginia region alone:
      with VMs only in Oregon it is highlighted but gray. Europe is green even
      when all its VMs are terminated. */
  lemma ContinentFillsAsWritten(rd: seq<RegionData>)
    requires |rd| == |Regions|
    requires forall i :: 0 <= i < |rd| ==> rd[i].country == Regions[i].country
    ensures var f := ContinentFills(rd);
            f[0] == (if rd[0].vmCount > 0 || rd[1].vmCount > 0 then Fill(GetRegionColor(rd[0]), true) else Fill(Gray, false)) &&
            (rd[0].vmCount == 0 && rd[1].vmCount > 0 ==> f[0] == Fill(Gray, true)) &&
            f[1] == (if rd[2].vmCount > 0 || rd[3].vmCount > 0 then Fill(Green, true) else Fill(Gray, false)) &&
            f[2] == (if rd[4].vmCount > 0 then Fill(GetRegionColor(rd[4]), true) else Fill(Gray, false))
  {
    assert rd[0].country == "USA" && rd[1].country == "USA" && rd[2].country == "Ireland";
    assert rd[3].country == "Germany" && rd[4].country == "Japan";
    assert FirstOf(rd, "USA") == 0;
    assert FirstOf(rd, "Japan") == 4;
    assert AnyIn(rd, {"USA"}) <==> rd[0].vmCount > 0 || rd[1].vmCount > 0;
    assert AnyIn(rd, {"Ireland", "Germany"}) <==> rd[2].vmCount > 0 || rd[3].vmCount > 0;
    assert AnyIn(rd, {"Japan"}) <==> rd[4].vmCount > 0;
  }
}
