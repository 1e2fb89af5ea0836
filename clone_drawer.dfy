/** The clone drawer: a form with a name, a target region and two switches,
    which builds a create payload for a copy of a VM and hands it to its
    `onClone` callback. The usage figures and the IP address of the copy are
    drawn at random; each `Math.random()` draw is passed in as a real number
    in [0, 1). */
module CloneDrawer {
  import opened VmModel
  import opened Outcomes
  import Text

  /** A value of `Math.random()`. */
  type Draw = r: real | 0.0 <= r < 1.0

  /** `Math.floor(r * k) + c`: an integer in [c, c + k). */
  function Scaled(r: Draw, k: nat, c: int): (n: int)
    requires k > 0
    ensures c <= n < c + k
  {
    var x := r * k as real;
    assert 0.0 <= x < k as real by {
      assert r * k as real < 1.0 * k as real;
    }
    x.Floor + c
  }

  /** Every integer of [c, c + k) is reached by some draw: the bounds are tight. */
  lemma ScaledReaches(n: int, k: nat, c: int)
    requires k > 0 && c <= n < c + k
    ensures Scaled((n - c) as real / k as real, k, c) == n
  {
    var r: Draw := (n - c) as real / k as real;
    assert r * k as real == (n - c) as real;
  }

  /** The seven draws of one clone, in the order the payload takes them. */
  datatype Draws = Draws(cpu: Draw, memory: Draw, storage: Draw, a: Draw, b: Draw, c: Draw, d: Draw)

  /** One octet of the address: `Math.floor(Math.random() * 255)`. */
  function Octet(r: Draw): (n: nat)
    ensures n <= 254
  {
    Scaled(r, 255, 0)
  }

  function Octets(dr: Draws): (o: seq<nat>)
    ensures |o| == 4 && forall i :: 0 <= i < 4 ==> o[i] <= 254
  {
    [Octet(dr.a), Octet(dr.b), Octet(dr.c), Octet(dr.d)]
  }

  /** The address: the four octets in decimal, joined with ".". */
  function IpAddress(dr: Draws): string {
    var o := Octets(dr);
    Text.Join([Text.NatToString(o[0]), Text.NatToString(o[1]), Text.NatToString(o[2]), Text.NatToString(o[3])], '.')
  }

  /** Reads a dotted address back: four non-empty runs of digits. */
  function ParseIp(s: string): Option<seq<nat>> {
    var parts := Text.SplitOn(s, '.');
    if |parts| == 4 && forall i :: 0 <= i < 4 ==> parts[i] != [] && Text.AllDigits(parts[i]) then
      Some([Text.ParseDigits(parts[0]), Text.ParseDigits(parts[1]), Text.ParseDigits(parts[2]), Text.ParseDigits(parts[3])])
    else None
  }

  /** The address is four "."-separated decimal numbers, which are the octets drawn. */
  lemma {:induction false} IpAddressReadsBack(dr: Draws)
    ensures ParseIp(IpAddress(dr)) == Some(Octets(dr))
  {
    var o := Octets(dr);
    var parts := [Text.NatToString(o[0]), Text.NatToString(o[1]), Text.NatToString(o[2]), Text.NatToString(o[3])];
    forall i | 0 <= i < 4 ensures '.' !in parts[i] {
      assert forall k :: 0 <= k < |parts[i]| ==> Text.IsDigit(parts[i][k]);
    }
    Text.SplitJoin(parts, '.');
    Text.ParseNatToString(o[0]);
    Text.ParseNatToString(o[1]);
    Text.ParseNatToString(o[2]);
    Text.ParseNatToString(o[3]);
  }

  /** The payload of a clone. */
  function Payload(name: string, region: string, autoStart: bool, dr: Draws): (v: VmData)
    ensures v.name == name && v.region == region
    ensures v.status == (if autoStart then Starting else Terminated)
    ensures 10 <= v.cpu <= 39 && 20 <= v.memory <= 59 && 30 <= v.storage <= 79
  {
    VmData(name, region, if autoStart then Starting else Terminated,
           Scaled(dr.cpu, 30, 10), Scaled(dr.memory, 40, 20), Scaled(dr.storage, 50, 30),
           IpAddress(dr))
  }

  /** The payload's address is four octets of [0, 254] joined with ".". */
  lemma PayloadAddress(name: string, region: string, autoStart: bool, dr: Draws)
    ensures var ip := ParseIp(Payload(name, region, autoStart, dr).ipAddress);
            ip.Some? && |ip.value| == 4 && forall i :: 0 <= i < 4 ==> ip.value[i] <= 254
  {
    IpAddressReadsBack(dr);
  }

  /** The regions the form offers. */
  const CloneRegions: seq<string> := [
    "US East (N. Virginia)",
    "US West (Oregon)",
    "EU West (Ireland)",
    "EU Central (Frankfurt)",
    "Asia Pacific (Tokyo)"
  ]

  /** The form offers exactly the five regions of the map, in the same order. */
  lemma CloneRegionsAreRegionNames()
    ensures CloneRegions == RegionNames
  {
  }

  /** What awaiting `onClone?.(newVM)` did: there was no callback, it
      returned, or it threw. */
  datatype CallbackOutcome = NoCallback | Returned | Threw(thrown: Thrown)

  /** The form's state. */
  class CloneForm {
    var cloneName: string
    var selectedRegion: string
    var includeData: bool
    var autoStart: bool

    /** The form as it opens: empty name and region, include data on, auto start off. */
    constructor ()
      ensures cloneName == "" && selectedRegion == "" && includeData && !autoStart
    {
      cloneName := "";
      selectedRegion := "";
      includeData := true;
      autoStart := false;
    }

    /** The Clone button is enabled, and a clone is made, only with a name and a region. */
    predicate CanClone()
      reads this
    {
      cloneName != "" && selectedRegion != ""
    }

    method SetName(name: string)
      modifies this
      ensures cloneName == name
      ensures selectedRegion == old(selectedRegion) && includeData == old(includeData) && autoStart == old(autoStart)
    {
      cloneName := name;
    }

    method SelectRegion(region: string)
      modifies this
      ensures selectedRegion == region
      ensures cloneName == old(cloneName) && includeData == old(includeData) && autoStart == old(autoStart)
    {
      selectedRegion := region;
    }

    method SetSwitches(data: bool, start: bool)
      modifies this
      ensures includeData == data && autoStart == start
      ensures cloneName == old(cloneName) && selectedRegion == old(selectedRegion)
    {
      includeData := data;
      autoStart := start;
    }

    /** `handleClone`: without a name or a region nothing happens. Otherwise the
        payload is built and handed to the callback; the form is reset unless
        the callback threw, in which case it keeps its values and an alert is shown. */
    method HandleClone(dr: Draws, callback: CallbackOutcome) returns (sent: Option<VmData>, alerted: bool)
      modifies this
      ensures !old(CanClone()) ==>
                sent == None && !alerted &&
                cloneName == old(cloneName) && selectedRegion == old(selectedRegion) &&
                includeData == old(includeData) && autoStart == old(autoStart)
      ensures old(CanClone()) ==> sent == Some(Payload(old(cloneName), old(selectedRegion), old(autoStart), dr))
      ensures old(CanClone()) && !callback.Threw? ==>
                !alerted && cloneName == "" && selectedRegion == "" && includeData && !autoStart
      ensures old(CanClone()) && callback.Threw? ==>
                alerted &&
                cloneName == old(cloneName) && selectedRegion == old(selectedRegion) &&
                includeData == old(includeData) && autoStart == old(autoStart)
    {
      if cloneName == "" || selectedRegion == "" {
        return None, false;
      }
      var newVM := VmData(cloneName, selectedRegion, if autoStart then Starting else Terminated,
                          Scaled(dr.cpu, 30, 10), Scaled(dr.memory, 40, 20), Scaled(dr.storage, 50, 30),
                          IpAddress(dr));
      sent := Some(newVM);
      if callback.Threw? {
        alerted := true;
        return;
      }
      alerted := false;
      cloneName := "";
      selectedRegion := "";
      includeData := true;
      autoStart := false;
    }
  }
}
