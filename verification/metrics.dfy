/**
  The gauges the exporter publishes, by name, and the nine of them that are
  derived from a last-run summary.
 */
module Metrics {
  import opened Summary

  /** Every gauge either variant declares, in the exporter's declaration order. */
  datatype Metric =
    | ExporterUp
    | TimeTotal | TimeLastRun
    | EventsFailure | EventsSuccess | EventsTotal
    | ResourcesFailed | ResourcesSkipped | ResourcesTotal | ResourcesChanged
    | SummaryReadErr
    | AgentUp

  /** The gauge's name inside the `puppet` namespace. */
  function Name(m: Metric): string {
    match m
    case ExporterUp => "exporter_up"
    case TimeTotal => "time_total"
    case TimeLastRun => "time_last_run"
    case EventsFailure => "events_failure"
    case EventsSuccess => "events_success"
    case EventsTotal => "events_total"
    case ResourcesFailed => "resources_failed"
    case ResourcesSkipped => "resources_skipped"
    case ResourcesTotal => "resources_total"
    case ResourcesChanged => "resources_changed"
    case SummaryReadErr => "summary_read_err"
    case AgentUp => "agent_up"
  }

  /** A gauge as handed over for exposition: its name and current value. */
  datatype Sample = Sample(metric: Metric, value: real)

  /** No metric occurs twice. */
  predicate Distinct(ms: seq<Metric>) {
    forall i, j :: 0 <= i < j < |ms| ==> ms[i] != ms[j]
  }

  /** The nine summary-derived gauges, in declaration order. */
  const LastRunMetrics: seq<Metric> :=
    [TimeTotal, TimeLastRun, EventsFailure, EventsSuccess, EventsTotal,
     ResourcesFailed, ResourcesSkipped, ResourcesTotal, ResourcesChanged]

  /** The values of the nine summary-derived gauges. */
  datatype LastRunGauges = LastRunGauges(
    timeTotal: real, timeLastRun: real,
    eventsFailure: real, eventsSuccess: real, eventsTotal: real,
    resourcesFailed: real, resourcesSkipped: real, resourcesTotal: real, resourcesChanged: real)
  {
    /** The value of one summary-derived gauge. */
    function Get(m: Metric): real
      requires m in LastRunMetrics
    {
      match m
      case TimeTotal => timeTotal
      case TimeLastRun => timeLastRun
      case EventsFailure => eventsFailure
      case EventsSuccess => eventsSuccess
      case EventsTotal => eventsTotal
      case ResourcesFailed => resourcesFailed
      case ResourcesSkipped => resourcesSkipped
      case ResourcesTotal => resourcesTotal
      case ResourcesChanged => resourcesChanged
    }
  }

  /** A freshly created gauge reads 0. */
  const ZeroGauges: LastRunGauges := LastRunGauges(0.0, 0.0, 0.0, 0.0, 0.0, 0.0, 0.0, 0.0, 0.0)

  /**
    Setting the nine gauges from a record: the duration as is, every integer
    field converted to a float (the conversion is taken as exact).
   */
  function Project(s: LastRunSummary): (g: LastRunGauges)
    ensures forall m :: m in LastRunMetrics ==> g.Get(m) == FieldOf(s, m)
  {
    LastRunGauges(
      s.time.total, s.time.lastRun as real,
      s.events.failure as real, s.events.success as real, s.events.total as real,
      s.resources.failed as real, s.resources.skipped as real,
      s.resources.total as real, s.resources.changed as real)
  }

  /** Reading a record back from published gauges: the integer fields are the floats' integer parts. */
  function Recover(g: LastRunGauges): LastRunSummary {
    LastRunSummary(
      TimeSection(g.timeTotal, g.timeLastRun.Floor),
      EventsSection(g.eventsFailure.Floor, g.eventsSuccess.Floor, g.eventsTotal.Floor),
      ResourcesSection(g.resourcesFailed.Floor, g.resourcesSkipped.Floor,
                       g.resourcesTotal.Floor, g.resourcesChanged.Floor))
  }

  /** Publishing loses nothing: every field lands in its own gauge and can be read back. */
  lemma RecoverProject(s: LastRunSummary)
    ensures Recover(Project(s)) == s
  {
  }

  /** The record field a summary-derived gauge is set from. */
  function FieldOf(s: LastRunSummary, m: Metric): real
    requires m in LastRunMetrics
  {
    match m
    case TimeTotal => s.time.total
    case TimeLastRun => s.time.lastRun as real
    case EventsFailure => s.events.failure as real
    case EventsSuccess => s.events.success as real
    case EventsTotal => s.events.total as real
    case ResourcesFailed => s.resources.failed as real
    case ResourcesSkipped => s.resources.skipped as real
    case ResourcesTotal => s.resources.total as real
    case ResourcesChanged => s.resources.changed as real
  }

  /** The zero record publishes zero on every gauge. */
  lemma ProjectZero()
    ensures Project(Zero) == ZeroGauges
  {
  }

  /** Every gauge has a name of its own. */
  lemma NamesDistinct(m1: Metric, m2: Metric)
    ensures Name(m1) == Name(m2) ==> m1 == m2
  {
  }
}
