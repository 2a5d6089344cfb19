/** The zone schedule: fixed 15-minute windows, a seed per window, one step of a
    linear congruential generator, and the zone table it indexes. Everything here
    is a pure function of a millisecond timestamp. */
module Schedule {
  import opened Wrappers

  /** The rotation table, in table order (37 names). */
  const Zones: seq<string> := [
      "Blood Moor and Den of Evil",
      "Cold Plains and the Cave",
      "Stony Field and Tristram",
      "Dark Wood and the Underground Passage",
      "Black Marsh and the Hole",
      "Tamoe Highland and the Pit",
      "Burial Ground and Mausoleum",
      "Forgotten Tower",
      "Outer Cloister and Barracks",
      "Jail, Inner Cloister, and Cathedral",
      "Catacombs",
      "Cow Level",
      "Rocky Waste and the Stony Tomb",
      "Dry Hills and the Halls of the Dead",
      "Far Oasis and the Maggot Lair",
      "Lost City, Ancient Tunnels, and Claw Viper Temple",
      "Canyon of the Magi and Tal Rasha's Tomb",
      "Lut Gholein Sewers and the Palace Cellars",
      "Arcane Sanctuary",
      "Spider Forest, Arachnid Lair, and Spider Cavern",
      "Great Marsh and the Swampy Pit",
      "Flayer Jungle and the Flayer Dungeon",
      "Lower Kurast and the Kurast Sewers",
      "Kurast Bazaar, Ruined Temple, and Disused Fane",
      "Upper Kurast, the Forgotten Reliquary, and Forgotten Temple",
      "Travincal, the Ruined Fane, and Disused Reliquary",
      "Durance of Hate",
      "Outer Steppes and the Plains of Despair",
      "City of the Damned and the River of Flame",
      "Chaos Sanctuary",
      "Bloody Foothills and the Frigid Highlands",
      "Arreat Plateau, Crystalline Passage, and Frozen River",
      "Glacial Trail, Drifter Cavern, and Frozen Tundra",
      "Ancients' Way and the Icy Cellar",
      "Nihlathak's Temple",
      "Abaddon, the Pit of Acheron, and the Infernal Pit",
      "Worldstone Keep and Throne of Destruction"
    ]

  /** Window length: 15 minutes in milliseconds. */
  const IntervalMs: int := 900_000
  /** Day length in milliseconds; the seed adds one per elapsed day. */
  const DayMs: int := 86_400_000
  /** Multiplier and increment of the legacy generator step. */
  const Multiplier: int := 214013
  const Increment: int := 2531011
  /** Windows per day. */
  const WindowsPerDay: int := 96

  /** One generator step, `((seed * mul + inc) >> 16) & 32767`. On unbounded
      integers a right shift by 16 is floor division by 65536 and a mask with
      32767 is the non-negative remainder modulo 32768, which is what Dafny's
      `/` and `%` compute for a positive divisor. */
  function NextPrng(seed: int, mul: int, inc: int): (r: int)
    ensures 0 <= r <= 32767
  {
    ((seed * mul + inc) / 65536) % 32768
  }

  /** The step only looks at bits 16..30 of the state: computing the state
      modulo any multiple of 2^31 (a 32-bit or 64-bit wrapping register, say)
      gives the same output as the unbounded computation. */
  lemma NextPrngWrapInvariant(seed: int, mul: int, inc: int, c: int)
    requires c >= 1
    ensures ((seed * mul + inc) % (2147483648 * c) / 65536) % 32768 == NextPrng(seed, mul, inc)
  {
    var x := seed * mul + inc;
    var m := 2147483648 * c;
    var q := x / m;
    var low := x % m;
    assert x == m * q + low;
    var k := c * q;
    assert m * q == 65536 * (32768 * k);
    DivAddMultiple(low, 32768 * k);
    ModAddMultiple(low / 65536, k);
  }

  /** The two usual register widths, as instances of the lemma above. */
  lemma NextPrngWrap32And64(seed: int, mul: int, inc: int)
    ensures ((seed * mul + inc) % 0x1_0000_0000 / 65536) % 32768 == NextPrng(seed, mul, inc)
    ensures ((seed * mul + inc) % 0x1_0000_0000_0000_0000 / 65536) % 32768 == NextPrng(seed, mul, inc)
  {
    NextPrngWrapInvariant(seed, mul, inc, 2);
    NextPrngWrapInvariant(seed, mul, inc, 0x2_0000_0000);
  }

  lemma DivAddMultiple(x: int, k: int)
    ensures (65536 * k + x) / 65536 == k + x / 65536
  {
  }

  lemma ModAddMultiple(x: int, k: int)
    ensures (32768 * k + x) % 32768 == x % 32768
  {
  }

  /** One value of the schedule: the zone active in the window starting at
      `tsMs`, and that window's seed. */
  datatype ZoneInfo = ZoneInfo(zone: string, tsMs: int, seed: int)

  /** Start of the window `n` windows after the one containing `tsMs`. */
  function WindowStart(tsMs: int, n: int): (ts: int)
    ensures ts % IntervalMs == 0
    ensures ts - n * IntervalMs <= tsMs < ts - n * IntervalMs + IntervalMs
  {
    (tsMs / IntervalMs) * IntervalMs + IntervalMs * n
  }

  /** The seed of a window: elapsed windows plus elapsed days. */
  function SeedOf(ts: int): (seed: int)
    ensures ts % IntervalMs == 0 ==> seed == ts / IntervalMs + ts / IntervalMs / WindowsPerDay
  {
    ts / IntervalMs + ts / DayMs
  }

  /** Index into the zone table chosen for a seed. */
  function ZoneIndex(seed: int): (idx: int)
    ensures 0 <= idx < |Zones|
  {
    NextPrng(seed, Multiplier, Increment) % |Zones|
  }

  /** The zone active `n` windows after the window containing `tsMs`. */
  function GetZone(tsMs: int, n: int): (z: ZoneInfo)
    ensures z.tsMs % IntervalMs == 0
    ensures z.tsMs - n * IntervalMs <= tsMs < z.tsMs - n * IntervalMs + IntervalMs
    ensures z.zone == Zones[ZoneIndex(z.seed)]
  {
    var ts := WindowStart(tsMs, n);
    var seed := SeedOf(ts);
    ZoneInfo(Zones[ZoneIndex(seed)], ts, seed)
  }

  /** The window index of the window `n` windows after the one containing `t`. */
  function WindowIndex(t: int, n: int): int
  {
    t / IntervalMs + n
  }

  /** A window's start is its index times the window length, and its seed is
      that index plus the number of whole days before it. */
  lemma SeedIsWindowPlusDay(t: int, n: int)
    ensures GetZone(t, n).tsMs == WindowIndex(t, n) * IntervalMs
    ensures GetZone(t, n).seed == WindowIndex(t, n) + WindowIndex(t, n) / WindowsPerDay
  {
    var k := WindowIndex(t, n);
    var ts := k * IntervalMs;
    assert GetZone(t, n).tsMs == ts;
    assert ts / IntervalMs == k;
    var d := k / WindowsPerDay;
    var r := k % WindowsPerDay;
    assert ts == d * DayMs + r * IntervalMs;
    assert 0 <= r * IntervalMs < DayMs;
    assert ts / DayMs == d;
  }

  /** Looking `n` windows ahead of `t` is the same as looking at the instant
      `n` windows later. */
  lemma GetZoneShift(t: int, n: int)
    ensures GetZone(t, n) == GetZone(t + n * IntervalMs, 0)
  {
    assert (t + n * IntervalMs) / IntervalMs == t / IntervalMs + n;
  }

  /** Seeds strictly increase along the lookahead. */
  lemma SeedStrictlyIncreasing(t: int, n: int, m: int)
    requires n < m
    ensures GetZone(t, n).seed < GetZone(t, m).seed
    ensures GetZone(t, n).tsMs < GetZone(t, m).tsMs
  {
    SeedIsWindowPlusDay(t, n);
    SeedIsWindowPlusDay(t, m);
  }

  /** The seed of the current window never decreases as time goes on. */
  lemma SeedMonotone(t1: int, t2: int)
    requires t1 <= t2
    ensures GetZone(t1, 0).seed <= GetZone(t2, 0).seed
    ensures GetZone(t1, 0).tsMs <= GetZone(t2, 0).tsMs
  {
    SeedIsWindowPlusDay(t1, 0);
    SeedIsWindowPlusDay(t2, 0);
    assert t1 / IntervalMs <= t2 / IntervalMs;
  }

  /** The seed identifies the window: two instants have the same current seed
      exactly when they lie in the same window, and then the whole zone
      information agrees. */
  lemma SeedIdentifiesWindow(t1: int, t2: int)
    ensures GetZone(t1, 0).seed == GetZone(t2, 0).seed <==> t1 / IntervalMs == t2 / IntervalMs
    ensures GetZone(t1, 0).seed == GetZone(t2, 0).seed <==> GetZone(t1, 0) == GetZone(t2, 0)
  {
    SeedIsWindowPlusDay(t1, 0);
    SeedIsWindowPlusDay(t2, 0);
    var k1, k2 := t1 / IntervalMs, t2 / IntervalMs;
    if k1 < k2 {
      assert k1 / WindowsPerDay <= k2 / WindowsPerDay;
    } else if k2 < k1 {
      assert k2 / WindowsPerDay <= k1 / WindowsPerDay;
    }
  }

  /** The active window and the next four, as the status command lists them. */
  function CurrentAndNext(now: int): (infos: seq<ZoneInfo>)
    ensures |infos| == 5
    ensures infos[0].tsMs <= now < infos[0].tsMs + IntervalMs
    ensures forall i :: 0 <= i < |infos| ==> infos[i].tsMs == infos[0].tsMs + i * IntervalMs
    ensures forall i :: 0 <= i < |infos| ==> infos[i] == GetZone(now + i * IntervalMs, 0)
  {
    var infos := seq(5, i requires 0 <= i < 5 => GetZone(now, i));
    assert forall i :: 0 <= i < |infos| ==> infos[i] == GetZone(now + i * IntervalMs, 0) by {
      forall i | 0 <= i < |infos| ensures infos[i] == GetZone(now + i * IntervalMs, 0) {
        GetZoneShift(now, i);
      }
    }
    infos
  }

  /** Offset of the first window at offset `from` .. `limit - 1` whose zone is
      `name`, if any. */
  function FindFirst(now: int, name: string, from: nat, limit: nat): (r: Option<nat>)
    ensures r.Some? ==> from <= r.value < limit && GetZone(now, r.value).zone == name
    ensures r.Some? ==> forall j :: from <= j < r.value ==> GetZone(now, j).zone != name
    ensures r.None? ==> forall j :: from <= j < limit ==> GetZone(now, j).zone != name
    decreases limit - from
  {
    if from >= limit then None
    else if GetZone(now, from).zone == name then Some(from)
    else FindFirst(now, name, from + 1, limit)
  }

  /** Scans offsets `0 .. limit - 1` in order and stops at the first window whose
      zone is `name`. */
  method FindNext(now: int, name: string, limit: nat) returns (r: Option<nat>)
    ensures r == FindFirst(now, name, 0, limit)
  {
    r := None;
    var i := 0;
    while i < limit
      invariant 0 <= i <= limit
      invariant FindFirst(now, name, i, limit) == FindFirst(now, name, 0, limit)
    {
      var z := GetZone(now, i);
      if z.zone == name {
        r := Some(i);
        break;
      }
      i := i + 1;
    }
  }

  /** Reference value at the epoch: window 0, seed 0, generator output 38,
      table index 1. */
  lemma EpochVector()
    ensures GetZone(0, 0) == ZoneInfo("Cold Plains and the Cave", 0, 0)
  {
    assert WindowStart(0, 0) == 0;
    assert SeedOf(0) == 0;
    assert ZoneIndex(0) == 1 by { assert NextPrng(0, Multiplier, Increment) == 38; }
  }

  /** Reference values around the first Cow Level window: at 2,100,000 ms the
      active window is window 2 (index 8) and the next one is window 3, the
      Cow Level (index 11). */
  lemma FirstCowWindowVectors()
    ensures GetZone(2_100_000, 0) == ZoneInfo("Outer Cloister and Barracks", 1_800_000, 2)
    ensures GetZone(2_100_000, 1) == ZoneInfo("Cow Level", 2_700_000, 3)
  {
    assert WindowStart(2_100_000, 0) == 1_800_000;
    assert SeedOf(1_800_000) == 2;
    assert ZoneIndex(2) == 8 by { assert NextPrng(2, Multiplier, Increment) == 45; }
    assert WindowStart(2_100_000, 1) == 2_700_000;
    assert SeedOf(2_700_000) == 3;
    assert ZoneIndex(3) == 11 by { assert NextPrng(3, Multiplier, Increment) == 48; }
  }

  /** The seed gains one extra step at each day boundary: window 96 (the start
      of day 1) has seed 97. */
  lemma DayBoundaryVector()
    ensures GetZone(86_400_000, 0).seed == 97
  {
    assert WindowStart(86_400_000, 0) == 86_400_000;
  }
}
