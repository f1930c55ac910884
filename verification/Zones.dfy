/**
 * The zone registry of the installation simulator: three fixed zones, their
 * per-zone sensor topology and the identifier formats of the devices in them
 * (installation_sim.py, `InstallationSim.__init__` and the `simulate_*` loops).
 */
module Zones {

  datatype Zone = EntranceClearing | DeepForest | Riverside

  /** The order in which the simulator's zone dictionary is iterated. */
  const ZoneOrder: seq<Zone> := [EntranceClearing, DeepForest, Riverside]

  /** Every zone has three trees with strain gauges. */
  const TreesPerZone: nat := 3
  /** Every zone has five TF-Mini LiDAR visitor sensors. */
  const SensorsPerZone: nat := 5

  /** Position of a zone in `ZoneOrder`. */
  function Index(z: Zone): (i: nat)
    ensures i < |ZoneOrder| && ZoneOrder[i] == z
  {
    match z
    case EntranceClearing => 0
    case DeepForest => 1
    case Riverside => 2
  }

  /** `Index` inverts `ZoneOrder`; in particular the zones listed are distinct. */
  lemma IndexOfZoneOrder()
    ensures forall j :: 0 <= j < |ZoneOrder| ==> Index(ZoneOrder[j]) == j
  {
  }

  /** `ZoneOrder` lists every zone. */
  lemma InZoneOrder(z: Zone)
    ensures z in ZoneOrder
  {
    assert ZoneOrder[Index(z)] == z;
  }

  /** The dictionary key of a zone, also the `zone` field of every reading. */
  function Name(z: Zone): string {
    match z
    case EntranceClearing => "entrance_clearing"
    case DeepForest => "deep_forest"
    case Riverside => "riverside"
  }

  /** The zone's `typical_visitors` setting, which scales its detection probability. */
  function TypicalVisitors(z: Zone): nat {
    match z
    case EntranceClearing => 5
    case DeepForest => 2
    case Riverside => 3
  }

  /** Distinct zones have distinct names: they already differ in their first letter. */
  lemma NameInjective(z1: Zone, z2: Zone)
    requires Name(z1) == Name(z2)
    ensures z1 == z2
  {
    assert Name(z1)[0] == Name(z2)[0];
  }

  // ---------------------------------------------------------------------------
  // Decimal formatting, as Python's `f"{n:02d}"` does it for n >= 0.

  function DigitChar(d: nat): (c: char)
    requires d < 10
    ensures '0' <= c <= '9'
  {
    (48 + d) as char
  }

  function DigitValue(c: char): nat
    requires '0' <= c <= '9'
  {
    (c as int) - 48
  }

  predicate AllDigits(s: string) {
    forall i :: 0 <= i < |s| ==> '0' <= s[i] <= '9'
  }

  /** Shortest decimal spelling of `n`. */
  function Decimal(n: nat): string {
    if n < 10 then [DigitChar(n)] else Decimal(n / 10) + [DigitChar(n % 10)]
  }

  /** `f"{n:02d}"`: the decimal spelling of `n`, left-padded with '0' to two characters. */
  function Pad2(n: nat): string {
    if n < 10 then ['0', DigitChar(n)] else Decimal(n)
  }

  /** Value of a string of decimal digits; leading zeros are allowed. */
  function ParseDecimal(s: string): nat
    requires AllDigits(s)
  {
    if s == [] then 0 else ParseDecimal(s[..|s| - 1]) * 10 + DigitValue(s[|s| - 1])
  }

  /** The decimal spelling of `n` is made of digits and reads back as `n`. */
  lemma {:induction false} DecimalRoundTrip(n: nat)
    ensures AllDigits(Decimal(n)) && ParseDecimal(Decimal(n)) == n
    ensures |Decimal(n)| >= 1 && (|Decimal(n)| == 1 <==> n < 10)
  {
    if n >= 10 {
      DecimalRoundTrip(n / 10);
      var s := Decimal(n);
      assert s[..|s| - 1] == Decimal(n / 10);
    }
  }

  /**
   * The padded spelling has at least two digits, exactly two below 100, and
   * zero padding loses nothing: it still reads back as `n`.
   */
  lemma Pad2RoundTrip(n: nat)
    ensures AllDigits(Pad2(n)) && ParseDecimal(Pad2(n)) == n
    ensures |Pad2(n)| >= 2 && (n < 100 ==> |Pad2(n)| == 2)
  {
    if n < 10 {
      var s := Pad2(n);
      assert s[..1][..0] == [];
      assert ParseDecimal(s[..1]) == 0;
      assert s[..|s| - 1] == s[..1];
    } else {
      DecimalRoundTrip(n);
      if n < 100 {
        DecimalRoundTrip(n / 10);
      }
    }
  }

  // ---------------------------------------------------------------------------
  // Device identifiers.

  /** `{zone}_tree_{idx:02d}` */
  function TreeId(z: Zone, idx: nat): string {
    Name(z) + "_tree_" + Pad2(idx)
  }

  /** `{zone}_lidar_{idx:02d}` */
  function LidarId(z: Zone, idx: nat): string {
    Name(z) + "_lidar_" + Pad2(idx)
  }

  /** `{zone}_speaker_main` */
  function SpeakerId(z: Zone): string {
    Name(z) + "_speaker_main"
  }

  /** `{zone}_led_main` */
  function LedId(z: Zone): string {
    Name(z) + "_led_main"
  }

  /** Two trees share an identifier only if they are the same tree of the same zone. */
  lemma TreeIdInjective(z1: Zone, i1: nat, z2: Zone, i2: nat)
    requires TreeId(z1, i1) == TreeId(z2, i2)
    ensures z1 == z2 && i1 == i2
  {
    assert TreeId(z1, i1)[0] == Name(z1)[0];
    assert TreeId(z2, i2)[0] == Name(z2)[0];
    NameInjective(z1, z2);
    var k := |Name(z1)| + 6;
    assert TreeId(z1, i1)[k..] == Pad2(i1);
    assert TreeId(z2, i2)[k..] == Pad2(i2);
    Pad2RoundTrip(i1);
    Pad2RoundTrip(i2);
  }

  /** Two LiDAR sensors share an identifier only if they are the same sensor of the same zone. */
  lemma LidarIdInjective(z1: Zone, i1: nat, z2: Zone, i2: nat)
    requires LidarId(z1, i1) == LidarId(z2, i2)
    ensures z1 == z2 && i1 == i2
  {
    assert LidarId(z1, i1)[0] == Name(z1)[0];
    assert LidarId(z2, i2)[0] == Name(z2)[0];
    NameInjective(z1, z2);
    var k := |Name(z1)| + 7;
    assert LidarId(z1, i1)[k..] == Pad2(i1);
    assert LidarId(z2, i2)[k..] == Pad2(i2);
    Pad2RoundTrip(i1);
    Pad2RoundTrip(i2);
  }
}
