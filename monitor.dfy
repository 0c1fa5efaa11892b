/**
 * The monitor object: it keeps the CPU tick counters of the previous refresh
 * and, on every timer tick, builds the report of that refresh.  The CPU load of
 * a refresh is measured between the ticks kept from the previous refresh (or,
 * for the first refresh, those read when the monitor was created) and now;
 * then the kept ticks are replaced by a fresh sample.
 */
module Monitor {
  import opened Seqs
  import opened Layout
  import opened Builder

  /**
   * What one refresh reads from the hardware library: the readings of the
   * report, the processor's load between a given tick vector and now
   * (getSystemCpuLoadBetweenTicks), and the fresh tick sample
   * (getSystemCpuLoadTicks).
   */
  datatype Refresh = Refresh(readings: Readings, loadSince: seq<int> -> real, ticks: seq<int>)

  /** The tick vector the load of refresh `k` is measured from. */
  function Baseline(initialTicks: seq<int>, refreshes: seq<Refresh>, k: nat): seq<int>
    requires k <= |refreshes|
  {
    if k == 0 then initialTicks else refreshes[k - 1].ticks
  }

  /** The report of refresh `k` of a run that started from `initialTicks`. */
  function RunReport(f: Renderers, initialTicks: seq<int>, refreshes: seq<Refresh>, k: nat): string
    requires k < |refreshes|
  {
    Text(ReportLines(refreshes[k].readings, refreshes[k].loadSince(Baseline(initialTicks, refreshes, k)), f))
  }

  class SystemHealthMonitor {
    /** The number formats of the monitor (its DecimalFormat and Java's rendering of doubles). */
    const renderers: Renderers
    /** The CPU tick counters of the previous refresh. */
    var prevTicks: seq<int>

    /** The tick counters are read once, when the monitor is created. */
    constructor(renderers: Renderers, initialTicks: seq<int>)
      ensures this.renderers == renderers && prevTicks == initialTicks
    {
      this.renderers := renderers;
      prevTicks := initialTicks;
    }

    /**
     * One refresh: the report shows the load measured from the kept ticks,
     * and the kept ticks become the fresh sample; nothing else changes.
     */
    method UpdateStats(c: Refresh) returns (report: string)
      modifies this
      ensures prevTicks == c.ticks
      ensures report == Text(ReportLines(c.readings, c.loadSince(old(prevTicks)), renderers))
    {
      var cpuLoad := c.loadSince(prevTicks);
      prevTicks := c.ticks;
      report := BuildReport(c.readings, cpuLoad, renderers);
    }
  }

  /** The reports of a run, one per refresh. */
  function RunReports(f: Renderers, initialTicks: seq<int>, refreshes: seq<Refresh>): seq<string> {
    seq(|refreshes|, k requires 0 <= k < |refreshes| => RunReport(f, initialTicks, refreshes, k))
  }

  /**
   * Refresh `k` of a run measures the CPU load from the sample of refresh
   * `k - 1`, and the first refresh from the ticks read at construction.
   */
  lemma RunBaselines(f: Renderers, initialTicks: seq<int>, refreshes: seq<Refresh>, k: nat)
    requires k < |refreshes|
    ensures RunReports(f, initialTicks, refreshes)[k]
         == Text(ReportLines(refreshes[k].readings,
                             refreshes[k].loadSince(if k == 0 then initialTicks else refreshes[k - 1].ticks), f))
  {
  }

  /**
   * The timer firing once per refresh: every report measures the load from
   * the sample of the refresh before it, the first from the monitor's initial
   * ticks, and afterwards the monitor keeps the last refresh's sample.
   */
  method Run(m: SystemHealthMonitor, refreshes: seq<Refresh>) returns (reports: seq<string>)
    modifies m
    ensures reports == RunReports(m.renderers, old(m.prevTicks), refreshes)
    ensures m.prevTicks == Baseline(old(m.prevTicks), refreshes, |refreshes|)
  {
    ghost var expected := RunReports(m.renderers, m.prevTicks, refreshes);
    ghost var initialTicks := m.prevTicks;
    reports := [];
    TakeNone(expected);
    for i := 0 to |refreshes|
      invariant m.prevTicks == Baseline(initialTicks, refreshes, i)
      invariant reports == expected[..i]
    {
      var report := m.UpdateStats(refreshes[i]);
      assert report == expected[i];
      TakeSnoc(expected, i);
      reports := reports + [report];
    }
    TakeAll(expected);
  }
}
