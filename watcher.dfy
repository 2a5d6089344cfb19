/** The periodic watcher: two seed cells that make each alert fire at most
    once per window. A tick returns the alerts it would send instead of sending
    them. */
module Watcher {
  import opened Wrappers
  import opened Schedule

  const CowLevel: string := "Cow Level"
  /** How many windows ahead the Cow Level scan looks. */
  const CowLookahead: nat := 300
  /** The Cow Level warning is due this long before the window starts. */
  const WarnLeadMs: int := 600_000
  /** Polling period of the watcher. */
  const PollMs: int := 30_000

  /** The zones whose activation is announced. */
  predicate IsTargetZone(z: string)
    ensures IsTargetZone(z) ==> z in Zones
  {
    z in {"Chaos Sanctuary", "Cow Level", "Stony Field and Tristram"}
  }

  datatype Alert =
    | ActiveNow(info: ZoneInfo)   // a target zone is active now
    | CowSoon(info: ZoneInfo)     // the Cow Level starts in 10 minutes

  /** The two process-wide cells: seed of the last active alert and of the
      last Cow Level warning (`None` before the first). */
  datatype AlertState = AlertState(lastSeed: Option<int>, lastCowSeed: Option<int>)

  datatype TickResult = TickResult(state: AlertState, alerts: seq<Alert>)

  /** The first Cow Level window within the lookahead, if any. */
  function CowCandidate(now: int): (c: Option<ZoneInfo>)
    ensures c.None? ==> forall j :: 0 <= j < CowLookahead ==> GetZone(now, j).zone != CowLevel
    ensures c.Some? ==>
      exists k :: 0 <= k < CowLookahead && c.value == GetZone(now, k) &&
        forall j :: 0 <= j < k ==> GetZone(now, j).zone != CowLevel
    ensures c.Some? ==> c.value.zone == CowLevel && now < c.value.tsMs + IntervalMs
  {
    match FindFirst(now, CowLevel, 0, CowLookahead)
    case None => None
    case Some(k) => Some(GetZone(now, k))
  }

  /** The active alert is due when the current zone is a target zone whose
      seed has not been announced. */
  predicate ActiveDue(lastSeed: Option<int>, cur: ZoneInfo)
    ensures ActiveDue(lastSeed, cur) ==> cur.zone in Zones
  {
    IsTargetZone(cur.zone) && Some(cur.seed) != lastSeed
  }

  /** The Cow Level warning is due during the one poll period that starts 10
      minutes before the window, unless that window was already warned of. */
  predicate CowDue(lastCowSeed: Option<int>, z: ZoneInfo, now: int)
    ensures CowDue(lastCowSeed, z, now) ==> WarnLeadMs - PollMs < z.tsMs - now <= WarnLeadMs
  {
    var warnAt := z.tsMs - WarnLeadMs;
    warnAt <= now < warnAt + PollMs && Some(z.seed) != lastCowSeed
  }

  /** Storing an alert's seed makes it no longer due, whatever the time. */
  lemma StoredSeedNotDue(cur: ZoneInfo, z: ZoneInfo, now: int)
    ensures !ActiveDue(Some(cur.seed), cur)
    ensures !CowDue(Some(z.seed), z, now)
  {
  }

  /** The cell and the alerts of one kind after one poll. */
  datatype KindResult = KindResult(last: Option<int>, alerts: seq<Alert>)

  /** The active-zone part of a poll: announce the current window if due and
      store its seed. */
  function ActivePart(lastSeed: Option<int>, now: int): (r: KindResult)
    ensures ActiveDue(lastSeed, GetZone(now, 0)) ==> r.alerts == [ActiveNow(GetZone(now, 0))]
    ensures forall a :: a in r.alerts ==>
      a == ActiveNow(GetZone(now, 0)) && ActiveDue(lastSeed, a.info) && r.last == Some(a.info.seed)
    ensures r.last != lastSeed ==> r.alerts != []
    ensures |r.alerts| <= 1
  {
    var cur := GetZone(now, 0);
    if ActiveDue(lastSeed, cur) then KindResult(Some(cur.seed), [ActiveNow(cur)])
    else KindResult(lastSeed, [])
  }

  /** The Cow Level part of a poll: warn of the first Cow Level window of the
      lookahead if due and store its seed. */
  function CowPart(lastCowSeed: Option<int>, now: int): (r: KindResult)
    ensures CowCandidate(now).Some? && CowDue(lastCowSeed, CowCandidate(now).value, now) ==>
      r.alerts == [CowSoon(CowCandidate(now).value)]
    ensures forall a :: a in r.alerts ==>
      a.CowSoon? && Some(a.info) == CowCandidate(now) && CowDue(lastCowSeed, a.info, now) &&
      r.last == Some(a.info.seed)
    ensures r.last != lastCowSeed ==> r.alerts != []
    ensures |r.alerts| <= 1
  {
    var c := CowCandidate(now);
    if c.Some? && CowDue(lastCowSeed, c.value, now) then KindResult(Some(c.value.seed), [CowSoon(c.value)])
    else KindResult(lastCowSeed, [])
  }

  /** One tick of the watcher at instant `now`; `channelFound` says whether the
      notification channel could be looked up (the tick does nothing if not). */
  function Step(st: AlertState, now: int, channelFound: bool): (r: TickResult)
    ensures |r.alerts| <= 2
    ensures forall a :: a in r.alerts && a.ActiveNow? ==> r.state.lastSeed == Some(a.info.seed)
    ensures forall a :: a in r.alerts && a.CowSoon? ==> r.state.lastCowSeed == Some(a.info.seed)
    ensures r.state.lastSeed != st.lastSeed ==> exists a :: a in r.alerts && a.ActiveNow?
    ensures r.state.lastCowSeed != st.lastCowSeed ==> exists a :: a in r.alerts && a.CowSoon?
  {
    if !channelFound then TickResult(st, [])
    else
      var active := ActivePart(st.lastSeed, now);
      var warn := CowPart(st.lastCowSeed, now);
      assert active.alerts != [] ==> active.alerts[0] in active.alerts + warn.alerts;
      assert warn.alerts != [] ==> warn.alerts[0] in active.alerts + warn.alerts;
      TickResult(AlertState(active.last, warn.last), active.alerts + warn.alerts)
  }

  /** The watcher with its two seed cells. */
  class ZoneWatcher {
    var lastSeed: Option<int>
    var lastCowSeed: Option<int>

    constructor ()
      ensures lastSeed == None && lastCowSeed == None
    {
      lastSeed := None;
      lastCowSeed := None;
    }

    function State(): AlertState
      reads this
    {
      AlertState(lastSeed, lastCowSeed)
    }

    /** One poll: announce an active target zone once per window, and warn once
        of the first Cow Level window within the lookahead when `now` is in the
        poll period 10 minutes before it starts. */
    method Tick(now: int, channelFound: bool) returns (alerts: seq<Alert>)
      modifies this
      ensures TickResult(State(), alerts) == Step(old(State()), now, channelFound)
      ensures !channelFound ==> alerts == [] && lastSeed == old(lastSeed) && lastCowSeed == old(lastCowSeed)
    {
      alerts := [];
      if !channelFound {
        return;
      }
      var cur := GetZone(now, 0);
      var active: seq<Alert> := [];
      if IsTargetZone(cur.zone) && Some(cur.seed) != lastSeed {
        lastSeed := Some(cur.seed);
        active := [ActiveNow(cur)];
      }
      var k := FindNext(now, CowLevel, CowLookahead);
      ghost var cow := CowCandidate(now);
      assert cow == if k.Some? then Some(GetZone(now, k.value)) else None;
      var warn: seq<Alert> := [];
      if k.Some? {
        var z := GetZone(now, k.value);
        var warnAt := z.tsMs - WarnLeadMs;
        if warnAt <= now < warnAt + PollMs && Some(z.seed) != lastCowSeed {
          lastCowSeed := Some(z.seed);
          warn := [CowSoon(z)];
        }
      }
      alerts := active + warn;
    }
  }

  /** The active alert fires exactly when the current zone is a target zone
      whose seed is not in the cell; firing stores that seed. */
  lemma ActiveAlertRule(st: AlertState, now: int)
    ensures var cur := GetZone(now, 0);
      var fire := IsTargetZone(cur.zone) && st.lastSeed != Some(cur.seed);
      && (ActiveNow(cur) in Step(st, now, true).alerts <==> fire)
      && (forall a :: a in Step(st, now, true).alerts && a.ActiveNow? ==> a == ActiveNow(cur))
      && Step(st, now, true).state.lastSeed == (if fire then Some(cur.seed) else st.lastSeed)
  {
  }

  /** The Cow Level warning fires exactly when the first Cow Level window of
      the lookahead starts 9.5 to 10 minutes from now and its seed is not in
      the cell; firing stores that seed. */
  lemma CowAlertRule(st: AlertState, now: int, z: ZoneInfo)
    requires CowCandidate(now) == Some(z)
    ensures var fire := z.tsMs - WarnLeadMs <= now < z.tsMs - WarnLeadMs + PollMs && st.lastCowSeed != Some(z.seed);
      && (CowSoon(z) in Step(st, now, true).alerts <==> fire)
      && (forall a :: a in Step(st, now, true).alerts && a.CowSoon? ==> a == CowSoon(z))
      && Step(st, now, true).state.lastCowSeed == (if fire then Some(z.seed) else st.lastCowSeed)
  {
  }

  /** No Cow Level window within the lookahead: no warning, cell unchanged. */
  lemma NoCowNoWarning(st: AlertState, now: int, channelFound: bool)
    requires forall j :: 0 <= j < CowLookahead ==> GetZone(now, j).zone != CowLevel
    ensures forall a :: a in Step(st, now, channelFound).alerts ==> !a.CowSoon?
    ensures Step(st, now, channelFound).state.lastCowSeed == st.lastCowSeed
  {
    assert CowCandidate(now).None?;
  }

  /** The two cells are independent: what happens to each alert kind does not
      depend on the other kind's cell. */
  lemma CellsIndependent(s1: Option<int>, s2: Option<int>, c1: Option<int>, c2: Option<int>,
                         now: int, channelFound: bool)
    ensures Step(AlertState(s1, c1), now, channelFound).state.lastSeed
         == Step(AlertState(s1, c2), now, channelFound).state.lastSeed
    ensures Step(AlertState(s1, c1), now, channelFound).state.lastCowSeed
         == Step(AlertState(s2, c1), now, channelFound).state.lastCowSeed
    ensures forall a :: a in Step(AlertState(s1, c1), now, channelFound).alerts && a.ActiveNow? ==>
      a in Step(AlertState(s1, c2), now, channelFound).alerts
    ensures forall a :: a in Step(AlertState(s1, c1), now, channelFound).alerts && a.CowSoon? ==>
      a in Step(AlertState(s2, c1), now, channelFound).alerts
  {
  }

  /** A second poll in the same window never repeats the active alert. */
  lemma SecondTickSameWindowSilent(st: AlertState, t1: int, t2: int, channelFound: bool)
    requires t1 / IntervalMs == t2 / IntervalMs
    ensures forall a :: a in Step(Step(st, t1, true).state, t2, channelFound).alerts ==> !a.ActiveNow?
  {
    SeedIdentifiesWindow(t1, t2);
  }

  /** A Cow Level warning is always about the window that starts between 9.5
      and 10 minutes after the poll, i.e. the window containing the instant 10
      minutes ahead. Since the scan starts at the current window, that is
      always the next window, and the current one is not the Cow Level. */
  lemma CowWarningTargetsLeadWindow(st: AlertState, now: int, channelFound: bool, z: ZoneInfo)
    requires CowSoon(z) in Step(st, now, channelFound).alerts
    ensures z.zone == CowLevel
    ensures z.tsMs - WarnLeadMs <= now < z.tsMs - WarnLeadMs + PollMs
    ensures z == GetZone(now + WarnLeadMs, 0)
    ensures z == GetZone(now, 1) && GetZone(now, 0).zone != CowLevel
    ensures st.lastCowSeed != Some(z.seed)
  {
    CowSoonIsDue(st, now, channelFound, z);
    var k := FindFirst(now, CowLevel, 0, CowLookahead).value;
    LeadWindowOffset(now, k);
  }

  /** A warning in a tick's output is the lookahead's Cow Level candidate, and
      it was due. */
  lemma CowSoonIsDue(st: AlertState, now: int, channelFound: bool, z: ZoneInfo)
    requires CowSoon(z) in Step(st, now, channelFound).alerts
    ensures CowCandidate(now) == Some(z) && CowDue(st.lastCowSeed, z, now)
    ensures FindFirst(now, CowLevel, 0, CowLookahead).Some?
    ensures z == GetZone(now, FindFirst(now, CowLevel, 0, CowLookahead).value)
  {
  }

  /** The only window whose start lies more than 9.5 and at most 10 minutes
      after `now` is the next one, and it contains the instant 10 minutes
      ahead. */
  lemma LeadWindowOffset(now: int, k: int)
    requires WarnLeadMs - PollMs < GetZone(now, k).tsMs - now <= WarnLeadMs
    ensures k == 1
    ensures GetZone(now, k) == GetZone(now + WarnLeadMs, 0)
  {
    GetZoneShift(now, k);
    var w := now / IntervalMs + k;
    assert GetZone(now, k).tsMs == w * IntervalMs;
    assert (now + WarnLeadMs) / IntervalMs == w;
    assert (now + k * IntervalMs) / IntervalMs == w;
  }

  /** A sequence of polls, each with its instant and whether the channel was
      found. */
  datatype Poll = Poll(now: int, channelFound: bool)

  /** The watcher's state and every alert it emits over a sequence of polls. */
  function Run(st: AlertState, polls: seq<Poll>): (r: TickResult)
    ensures |r.alerts| <= 2 * |polls|
    ensures (forall i :: 0 <= i < |polls| ==> !polls[i].channelFound) ==> r == TickResult(st, [])
    decreases |polls|
  {
    if polls == [] then TickResult(st, [])
    else
      var first := Step(st, polls[0].now, polls[0].channelFound);
      var rest := Run(first.state, polls[1..]);
      TickResult(rest.state, first.alerts + rest.alerts)
  }

  predicate NondecreasingTimes(polls: seq<Poll>)
  {
    forall i, j :: 0 <= i < j < |polls| ==> polls[i].now <= polls[j].now
  }

  /** Alerts of one kind: the Cow Level warnings when `cow`, else the active
      alerts. */
  predicate OfKind(a: Alert, cow: bool)
  {
    if cow then a.CowSoon? else a.ActiveNow?
  }

  /** The cell that deduplicates alerts of one kind. */
  function LastOf(st: AlertState, cow: bool): Option<int>
  {
    if cow then st.lastCowSeed else st.lastSeed
  }

  /** The seed an alert of one kind fired at `now` carries: the current
      window's for the active alert, the window 10 minutes ahead for the Cow
      Level warning. */
  function KeyAt(now: int, cow: bool): int
  {
    if cow then GetZone(now + WarnLeadMs, 0).seed else GetZone(now, 0).seed
  }

  /** Within one kind, alert seeds strictly increase along the alert list. */
  predicate SeedsIncrease(alerts: seq<Alert>, cow: bool)
  {
    forall i, j :: 0 <= i < j < |alerts| && OfKind(alerts[i], cow) && OfKind(alerts[j], cow) ==>
      alerts[i].info.seed < alerts[j].info.seed
  }

  lemma KeyMonotone(t1: int, t2: int, cow: bool)
    requires t1 <= t2
    ensures KeyAt(t1, cow) <= KeyAt(t2, cow)
  {
    if cow {
      SeedMonotone(t1 + WarnLeadMs, t2 + WarnLeadMs);
    } else {
      SeedMonotone(t1, t2);
    }
  }

  /** What one tick does to one kind: every alert of that kind it emits
      carries `KeyAt(now, cow)`, which the cell did not hold; it emits at most
      one; and the cell changes only to that seed. */
  lemma StepOfKind(st: AlertState, now: int, channelFound: bool, cow: bool)
    ensures forall a :: a in Step(st, now, channelFound).alerts && OfKind(a, cow) ==>
      a.info.seed == KeyAt(now, cow) && LastOf(st, cow) != Some(a.info.seed)
    ensures SeedsIncrease(Step(st, now, channelFound).alerts, cow)
    ensures LastOf(Step(st, now, channelFound).state, cow) == LastOf(st, cow)
         || LastOf(Step(st, now, channelFound).state, cow) == Some(KeyAt(now, cow))
    ensures forall a :: a in Step(st, now, channelFound).alerts && OfKind(a, cow) ==>
      LastOf(Step(st, now, channelFound).state, cow) == Some(a.info.seed)
  {
    var r := Step(st, now, channelFound);
    if channelFound {
      AlertsOfKindCarryKey(st, now, cow);
      AtMostOneOfKind(r.alerts, cow);
      if LastOf(r.state, cow) != LastOf(st, cow) {
        var a :| a in r.alerts && OfKind(a, cow);
      }
    }
  }

  lemma AlertsOfKindCarryKey(st: AlertState, now: int, cow: bool)
    ensures forall a :: a in Step(st, now, true).alerts && OfKind(a, cow) ==>
      a.info.seed == KeyAt(now, cow) && LastOf(st, cow) != Some(a.info.seed)
  {
    forall a | a in Step(st, now, true).alerts && OfKind(a, cow)
      ensures a.info.seed == KeyAt(now, cow) && LastOf(st, cow) != Some(a.info.seed)
    {
      if cow {
        CowWarningTargetsLeadWindow(st, now, true, a.info);
      }
    }
  }

  /** A list holding at most one alert of a kind has increasing seeds of that
      kind. */
  lemma AtMostOneOfKind(alerts: seq<Alert>, cow: bool)
    requires forall i, j :: 0 <= i < j < |alerts| ==> !(OfKind(alerts[i], cow) && OfKind(alerts[j], cow))
    ensures SeedsIncrease(alerts, cow)
  {
  }

  lemma TailNondecreasing(polls: seq<Poll>)
    requires polls != [] && NondecreasingTimes(polls)
    ensures NondecreasingTimes(polls[1..])
  {
    var tail := polls[1..];
    forall i, j | 0 <= i < j < |tail| ensures tail[i].now <= tail[j].now {
      assert tail[i] == polls[i + 1] && tail[j] == polls[j + 1];
    }
  }

  /** Joining two increasing alert lists keeps seeds increasing when the
      first list's seeds of that kind are all at most `m` and the second's all
      above it. */
  lemma AppendIncrease(xs: seq<Alert>, ys: seq<Alert>, cow: bool, m: Option<int>)
    requires SeedsIncrease(xs, cow) && SeedsIncrease(ys, cow)
    requires forall a :: a in xs && OfKind(a, cow) ==> m.Some? && a.info.seed <= m.value
    requires forall a :: a in ys && OfKind(a, cow) && m.Some? ==> a.info.seed > m.value
    ensures SeedsIncrease(xs + ys, cow)
  {
    var all := xs + ys;
    forall i, j | 0 <= i < j < |all| && OfKind(all[i], cow) && OfKind(all[j], cow)
      ensures all[i].info.seed < all[j].info.seed
    {
      if j < |xs| {
        assert all[i] == xs[i] && all[j] == xs[j];
      } else if i < |xs| {
        assert all[i] == xs[i] && all[i] in xs;
        assert all[j] == ys[j - |xs|] && all[j] in ys;
      } else {
        assert all[i] == ys[i - |xs|] && all[j] == ys[j - |xs|];
      }
    }
  }

  /** Seeds of one kind strictly increase over any run whose poll instants do
      not go backwards, provided the cell starts at or below the first poll's
      seed; every emitted seed is above the cell's starting value. */
  lemma {:induction false} RunSeedsIncrease(st: AlertState, polls: seq<Poll>, cow: bool)
    requires NondecreasingTimes(polls)
    requires |polls| > 0 && LastOf(st, cow).Some? ==> LastOf(st, cow).value <= KeyAt(polls[0].now, cow)
    ensures SeedsIncrease(Run(st, polls).alerts, cow)
    ensures forall a :: a in Run(st, polls).alerts && OfKind(a, cow) && LastOf(st, cow).Some? ==>
      a.info.seed > LastOf(st, cow).value
    decreases |polls|
  {
    if polls != [] {
      var p := polls[0];
      var first := Step(st, p.now, p.channelFound);
      var tail := polls[1..];
      StepOfKind(st, p.now, p.channelFound, cow);
      var last := LastOf(st, cow);
      var mid := LastOf(first.state, cow);
      assert mid == last || mid == Some(KeyAt(p.now, cow));
      if |tail| > 0 {
        KeyMonotone(p.now, tail[0].now, cow);
      }
      TailNondecreasing(polls);
      RunSeedsIncrease(first.state, tail, cow);
      var rest := Run(first.state, tail);
      assert Run(st, polls).alerts == first.alerts + rest.alerts;
      ConsIncrease(first.alerts, rest.alerts, cow, last, mid, KeyAt(p.now, cow));
    }
  }

  /** One step of the induction above, on plain alert lists: `xs` are the
      first tick's alerts (all of the kind carry `key`, which the cell `last`
      did not hold and the new cell `mid` does), `ys` the rest of the run's. */
  lemma ConsIncrease(xs: seq<Alert>, ys: seq<Alert>, cow: bool, last: Option<int>, mid: Option<int>, key: int)
    requires SeedsIncrease(xs, cow) && SeedsIncrease(ys, cow)
    requires forall a :: a in xs && OfKind(a, cow) ==>
      a.info.seed == key && last != Some(key) && mid == Some(key)
    requires mid == last || mid == Some(key)
    requires last.Some? ==> last.value <= key
    requires forall a :: a in ys && OfKind(a, cow) && mid.Some? ==> a.info.seed > mid.value
    ensures SeedsIncrease(xs + ys, cow)
    ensures forall a :: a in xs + ys && OfKind(a, cow) && last.Some? ==> a.info.seed > last.value
  {
    AppendIncrease(xs, ys, cow, mid);
  }

  /** Over any run from the initial state whose poll instants do not go
      backwards, each window is announced at most once and each Cow Level
      window is warned of at most once: within each kind the seeds strictly
      increase. */
  lemma AtMostOneAlertPerOccurrence(polls: seq<Poll>)
    requires NondecreasingTimes(polls)
    ensures SeedsIncrease(Run(AlertState(None, None), polls).alerts, false)
    ensures SeedsIncrease(Run(AlertState(None, None), polls).alerts, true)
  {
    RunSeedsIncrease(AlertState(None, None), polls, false);
    RunSeedsIncrease(AlertState(None, None), polls, true);
  }

  /** Throughout window 2 the first Cow Level window of the lookahead is
      window 3, and window 2 itself is not a target zone. */
  lemma WindowTwoSchedule(now: int)
    requires 1_800_000 <= now < 2_700_000
    ensures CowCandidate(now) == Some(ZoneInfo(CowLevel, 2_700_000, 3))
    ensures !IsTargetZone(GetZone(now, 0).zone)
  {
    FirstCowWindowVectors();
    assert now / IntervalMs == 2_100_000 / IntervalMs;
    assert GetZone(now, 0) == GetZone(2_100_000, 0);
    assert GetZone(now, 1) == GetZone(2_100_000, 1);
    assert FindFirst(now, CowLevel, 1, CowLookahead) == Some(1);
    assert FindFirst(now, CowLevel, 0, CowLookahead) == Some(1);
  }

  /** Cow Level warning timing on a concrete schedule: window 3 (starting at
      2,700,000 ms) is the Cow Level and window 2 is not. A poll exactly 10
      minutes before it warns, one poll period earlier does not, the last
      millisecond of the poll period still warns, a second poll inside the
      period after a warning is silent, and the period is half-open. */
  lemma CowWarningTimingExample()
    ensures Step(AlertState(None, None), 2_100_000, true).alerts == [CowSoon(ZoneInfo(CowLevel, 2_700_000, 3))]
    ensures Step(AlertState(None, None), 2_070_000, true).alerts == []
    ensures Step(AlertState(None, None), 2_129_999, true).alerts == [CowSoon(ZoneInfo(CowLevel, 2_700_000, 3))]
    ensures Step(Step(AlertState(None, None), 2_100_000, true).state, 2_129_999, true).alerts == []
    ensures Step(AlertState(None, None), 2_130_000, true).alerts == []
  {
    WindowTwoSchedule(2_100_000);
    WindowTwoSchedule(2_070_000);
    WindowTwoSchedule(2_129_999);
    WindowTwoSchedule(2_130_000);
  }
}
