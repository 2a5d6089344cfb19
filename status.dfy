/** Minute arithmetic of the status command: how long the active window has
    left, and how long until each listed window starts. Text layout is not
    modelled; each status row is its label, its zone and its minute count. */
module Status {
  import opened Schedule

  const MinuteMs: int := 60_000

  /** Whole minutes from `nowMs` until `tsMs`, never negative:
      `max(0, (tsMs - nowMs) // 60000)`. */
  function MinsUntil(tsMs: int, nowMs: int): (m: nat)
    ensures tsMs <= nowMs ==> m == 0
    ensures tsMs >= nowMs ==> m * MinuteMs <= tsMs - nowMs < m * MinuteMs + MinuteMs
  {
    var q := (tsMs - nowMs) / MinuteMs;
    if q < 0 then 0 else q
  }

  /** Whole minutes until the window that starts at `activeTsMs` ends. */
  function MinutesLeftInWindow(activeTsMs: int, nowMs: int): (m: nat)
    ensures m == MinsUntil(activeTsMs + IntervalMs, nowMs)
    ensures activeTsMs <= nowMs ==> m <= 15
  {
    var endMs := activeTsMs + IntervalMs;
    var q := (endMs - nowMs) / MinuteMs;
    if q < 0 then 0 else q
  }

  datatype Label = Active | Next | NextPlus(k: nat)

  /** One line of the status block, without its layout. */
  datatype Row = Row(heading: Label, zone: string, minutes: nat)

  /** Label of the `i`-th listed window. */
  function LabelAt(i: nat): (l: Label)
    ensures l == Active <==> i == 0
    ensures l == Next <==> i == 1
    ensures l.NextPlus? <==> i >= 2
    ensures l.NextPlus? ==> l.k >= 1 && l.k + 1 == i
  {
    if i == 0 then Active else if i == 1 then Next else NextPlus(i - 1)
  }

  /** The row the status command shows for `infos[i]`: the active row and the
      "Next" row both show the active window's time left; later rows show the
      time until their window starts. */
  function RowAt(infos: seq<ZoneInfo>, nowMs: int, i: nat): (row: Row)
    requires 0 < |infos| && i < |infos|
    ensures row.heading == LabelAt(i) && row.zone == infos[i].zone
    ensures i <= 1 ==> row.minutes == MinsUntil(infos[0].tsMs + IntervalMs, nowMs)
    ensures i >= 2 ==> row.minutes == MinsUntil(infos[i].tsMs, nowMs)
  {
    var minutes :=
      if i <= 1 then MinutesLeftInWindow(infos[0].tsMs, nowMs)
      else MinsUntil(infos[i].tsMs, nowMs);
    Row(LabelAt(i), infos[i].zone, minutes)
  }

  /** Builds the status rows line by line, as the status command does. */
  method StatusRows(infos: seq<ZoneInfo>, nowMs: int) returns (rows: seq<Row>)
    requires 0 < |infos|
    ensures |rows| == |infos|
    ensures forall i :: 0 <= i < |rows| ==> rows[i] == RowAt(infos, nowMs, i)
  {
    var activeLeft := MinutesLeftInWindow(infos[0].tsMs, nowMs);
    rows := [];
    var i := 0;
    while i < |infos|
      invariant 0 <= i <= |infos|
      invariant |rows| == i
      invariant forall j :: 0 <= j < i ==> rows[j] == RowAt(infos, nowMs, j)
    {
      var z := infos[i];
      var heading, timing;
      if i == 0 {
        heading, timing := Active, activeLeft;
      } else if i == 1 {
        heading, timing := Next, activeLeft;
      } else {
        heading, timing := NextPlus(i - 1), MinsUntil(z.tsMs, nowMs);
      }
      rows := rows + [Row(heading, z.zone, timing)];
      i := i + 1;
    }
  }

  /** On the lookahead of one instant, every row after the first shows the
      true time until its window starts (so reusing the active time left for
      the "Next" row is exact), and the counts step by 15 minutes. */
  lemma LookaheadRows(now: int, i: nat)
    requires 1 <= i < 5
    ensures RowAt(CurrentAndNext(now), now, 0).minutes <= 15
    ensures RowAt(CurrentAndNext(now), now, i).minutes == MinsUntil(CurrentAndNext(now)[i].tsMs, now)
    ensures RowAt(CurrentAndNext(now), now, i).minutes == RowAt(CurrentAndNext(now), now, 0).minutes + 15 * (i - 1)
  {
    var infos := CurrentAndNext(now);
    var left := infos[0].tsMs + IntervalMs - now;
    assert 0 < left <= IntervalMs;
    var a := left / MinuteMs;
    assert infos[i].tsMs - now == left + (i - 1) * IntervalMs;
    assert (left + (i - 1) * IntervalMs) / MinuteMs == a + 15 * (i - 1);
  }
}
