/**
  The unlabelled exporter of the root `main` package: ten gauges, no error
  indicator, and a collection that republishes whatever the decoder left in
  a freshly zeroed record, whether or not the read or the decode failed.
 */
module MainExporter {
  import opened Wrappers
  import opened Summary
  import opened Metrics
  import Probe

  /** The exporter's gauge values. */
  datatype Gauges = Gauges(lastRun: LastRunGauges, agentUp: real)

  /** The state after a scrape, and the gauges sent on the scrape's channel, in order. */
  datatype Scrape = Scrape(gauges: Gauges, emitted: seq<Metric>)

  /** The ten gauges in declaration order. */
  const Declared: seq<Metric> := LastRunMetrics + [AgentUp]

  /** Exactly the metrics other than `exporter_up` and `summary_read_err` are declared. */
  lemma DeclaredGauges()
    ensures forall m: Metric :: m in Declared <==> !(m.ExporterUp? || m.SummaryReadErr?)
  {
    forall m: Metric ensures m in Declared <==> !(m.ExporterUp? || m.SummaryReadErr?) {
      match m
      case ExporterUp =>
      case SummaryReadErr =>
      case AgentUp => assert Declared[9] == m;
      case _ => assert m in LastRunMetrics;
    }
  }

  /** The gauges the exporter describes to the registry, in declaration order. */
  function Describe(): (ds: seq<Metric>)
    ensures |ds| == 10
    ensures Distinct(ds)
    ensures forall m: Metric :: m in ds <==> !(m.ExporterUp? || m.SummaryReadErr?)
  {
    DeclaredGauges();
    Declared
  }

  /**
    One scrape. A failed read leaves whatever bytes came back; a failed
    decode leaves the zero record; either way every gauge is overwritten and
    all ten are emitted.
   */
  function Collect(g: Gauges, file: ReadOutcome, decode: Decoder, procs: Probe.ProcessList): (r: Scrape)
    ensures r.emitted == Describe()
    ensures r.gauges.agentUp == Probe.AgentUp(procs)
    ensures decode(Returned(file)).Some? ==> r.gauges.lastRun == Project(decode(Returned(file)).value)
    ensures decode(Returned(file)).None? ==> r.gauges.lastRun == ZeroGauges
  {
    var record := decode(Returned(file)).GetOr(Zero);
    Scrape(Gauges(Project(record), Probe.AgentUp(procs)), LastRunMetrics + [AgentUp])
  }

  /** Nothing stale survives a scrape: the outcome does not depend on the prior gauge state. */
  lemma CollectForgetsPriorState(g1: Gauges, g2: Gauges, file: ReadOutcome, decode: Decoder, procs: Probe.ProcessList)
    ensures Collect(g1, file, decode, procs) == Collect(g2, file, decode, procs)
  {
  }

  /**
    When the file cannot be opened the decoder sees an empty document; if it
    reads that as the zero record (or rejects it), every last-run gauge is
    published as 0.
   */
  lemma OpenFailurePublishesZeros(g: Gauges, decode: Decoder, procs: Probe.ProcessList)
    requires decode([]) == None || decode([]) == Some(Zero)
    ensures Collect(g, ReadErr([]), decode, procs).gauges.lastRun == ZeroGauges
  {
  }

  /**
    Unlike the labelled exporter, a record with a zero timestamp is
    published as it stands.
   */
  lemma ZeroTimestampPublished(g: Gauges, content: Bytes, decode: Decoder, procs: Probe.ProcessList)
    requires decode(content).Some? && decode(content).value.time.lastRun == 0
    ensures Collect(g, ReadOk(content), decode, procs).gauges.lastRun.timeLastRun == 0.0
    ensures Collect(g, ReadOk(content), decode, procs).gauges.lastRun == Project(decode(content).value)
  {
  }
}
