/**
  The labelled exporter (package `exporter`): twelve gauges, with a read-error
  indicator and stale-preserving collection. A scrape is one atomic
  transition from the gauge state and the outcomes of reading, decoding and
  probing to a new gauge state and the sequence of gauges handed to the
  registry.
 */
module Exporter {
  import opened Wrappers
  import opened Summary
  import opened Metrics
  import Probe

  /** The exporter's gauge values. */
  datatype Gauges = Gauges(exporterUp: real, lastRun: LastRunGauges, summaryReadErr: real, agentUp: real)

  /** The state after a scrape, and the gauges sent on the scrape's channel, in order. */
  datatype Scrape = Scrape(gauges: Gauges, emitted: seq<Metric>)

  /** Every gauge starts at zero when the exporter is created. */
  const Initial: Gauges := Gauges(0.0, ZeroGauges, 0.0, 0.0)

  /** The current value of any of the twelve gauges. */
  function Value(g: Gauges, m: Metric): real {
    match m
    case ExporterUp => g.exporterUp
    case SummaryReadErr => g.summaryReadErr
    case AgentUp => g.agentUp
    case _ => g.lastRun.Get(m)
  }

  /**
    The valid record of a scrape, if there is one: the file was read, the
    decoder accepted it, and its last-run timestamp is non-zero.
   */
  function Load(file: ReadOutcome, decode: Decoder): Option<LastRunSummary> {
    if file.ReadOk? && decode(file.content).Some? && decode(file.content).value.time.lastRun != 0
    then decode(file.content)
    else None
  }

  /** The three gauges a failing scrape emits. */
  const FailureEmission: seq<Metric> := [ExporterUp, AgentUp, SummaryReadErr]

  /** The twelve gauges a successful scrape emits. */
  const SuccessEmission: seq<Metric> := [ExporterUp, AgentUp] + LastRunMetrics + [SummaryReadErr]

  /** The twelve gauges in declaration order. */
  const Declared: seq<Metric> := [ExporterUp] + LastRunMetrics + [SummaryReadErr, AgentUp]

  /** Each of the twelve metrics is among the declared gauges. */
  lemma EveryGaugeDeclared()
    ensures forall m: Metric :: m in Declared
  {
    forall m: Metric ensures m in Declared {
      match m
      case ExporterUp => assert Declared[0] == m;
      case SummaryReadErr => assert Declared[10] == m;
      case AgentUp => assert Declared[11] == m;
      case _ => assert m in LastRunMetrics;
    }
  }

  /** The gauges the exporter describes to the registry, in declaration order. */
  function Describe(): (ds: seq<Metric>)
    ensures |ds| == 12
    ensures Distinct(ds)
    ensures forall m: Metric :: m in ds
  {
    EveryGaugeDeclared();
    Declared
  }

  /** A failed scrape: raise the error indicator and leave the last-run gauges as they are. */
  function Fail(up: Gauges): Scrape {
    Scrape(up.(summaryReadErr := 1.0), FailureEmission)
  }

  /** A successful scrape: overwrite the last-run gauges and clear the error indicator. */
  function Publish(up: Gauges, s: LastRunSummary): Scrape {
    var published := up.(lastRun := Project(s), summaryReadErr := 0.0);
    Scrape(published, SuccessEmission)
  }

  /** One scrape. */
  function Collect(g: Gauges, file: ReadOutcome, decode: Decoder, procs: Probe.ProcessList): (r: Scrape)
    ensures r.gauges.exporterUp == 1.0
    ensures r.gauges.agentUp == Probe.AgentUp(procs)
    ensures r.gauges.summaryReadErr == (if Load(file, decode).Some? then 0.0 else 1.0)
    ensures Load(file, decode).None? ==>
              r.gauges.lastRun == g.lastRun && r.emitted == FailureEmission
    ensures Load(file, decode).Some? ==>
              r.gauges.lastRun == Project(Load(file, decode).value) && r.emitted == SuccessEmission
  {
    var up := g.(exporterUp := 1.0, agentUp := Probe.AgentUp(procs));
    match file
    case ReadErr(_) => Fail(up)
    case ReadOk(content) =>
      match decode(content)
      case None => Fail(up)
      case Some(s) =>
        if s.time.lastRun == 0 then Fail(up) else Publish(up, s)
  }

  /** A decoder error has exactly the effect of a read error. */
  lemma DecodeFailureLikeReadFailure(g: Gauges, content: Bytes, partial: Bytes, decode: Decoder, procs: Probe.ProcessList)
    requires decode(content).None?
    ensures Collect(g, ReadOk(content), decode, procs) == Collect(g, ReadErr(partial), decode, procs)
  {
  }

  /** A decoded record whose last-run timestamp is zero is rejected like an unreadable file. */
  lemma ZeroTimestampLikeReadFailure(g: Gauges, content: Bytes, partial: Bytes, decode: Decoder, procs: Probe.ProcessList)
    requires decode(content).Some? && decode(content).value.time.lastRun == 0
    ensures Collect(g, ReadOk(content), decode, procs) == Collect(g, ReadErr(partial), decode, procs)
  {
  }

  /** Scraping again with the same inputs changes nothing further and emits the same gauges. */
  lemma CollectIdempotent(g: Gauges, file: ReadOutcome, decode: Decoder, procs: Probe.ProcessList)
    ensures Collect(Collect(g, file, decode, procs).gauges, file, decode, procs) == Collect(g, file, decode, procs)
  {
  }

  /**
    Every emitted gauge is described, none twice; a successful scrape emits
    every described gauge.
   */
  lemma EmissionDescribed(g: Gauges, file: ReadOutcome, decode: Decoder, procs: Probe.ProcessList)
    ensures var r := Collect(g, file, decode, procs);
      && (forall m :: m in r.emitted ==> m in Describe())
      && Distinct(r.emitted)
      && (Load(file, decode).Some? ==> multiset(r.emitted) == multiset(Describe()))
  {
    var r := Collect(g, file, decode, procs);
    EveryGaugeDeclared();
    if Load(file, decode).Some? {
      SuccessEmissionReordersDeclared();
    } else {
      assert r.emitted == FailureEmission;
    }
  }

  /** The success emission is the declaration order with `agent_up` moved up behind `exporter_up`. */
  lemma SuccessEmissionReordersDeclared()
    ensures multiset(SuccessEmission) == multiset(Declared)
    ensures Distinct(SuccessEmission)
  {
    var lr := multiset(LastRunMetrics);
    assert multiset(SuccessEmission) == multiset{ExporterUp, AgentUp} + lr + multiset{SummaryReadErr};
    assert multiset(Declared) == multiset{ExporterUp} + lr + multiset{SummaryReadErr, AgentUp};
    SuccessEmissionDistinct();
  }

  /** No gauge is emitted twice by a successful scrape. */
  lemma SuccessEmissionDistinct()
    ensures Distinct(SuccessEmission)
  {
    var e := [ExporterUp, AgentUp, TimeTotal, TimeLastRun, EventsFailure, EventsSuccess, EventsTotal,
              ResourcesFailed, ResourcesSkipped, ResourcesTotal, ResourcesChanged, SummaryReadErr];
    assert SuccessEmission == e;
  }

  /** The gauge values a scrape hands over for exposition, in emission order. */
  function Exposition(r: Scrape): seq<Sample> {
    seq(|r.emitted|, i requires 0 <= i < |r.emitted| => Sample(r.emitted[i], Value(r.gauges, r.emitted[i])))
  }

  /**
    Stale last-run values are kept but never exposed: what a scrape hands
    over does not depend on the gauge state before it.
   */
  lemma ExpositionIgnoresPriorState(g1: Gauges, g2: Gauges, file: ReadOutcome, decode: Decoder, procs: Probe.ProcessList)
    ensures Exposition(Collect(g1, file, decode, procs)) == Exposition(Collect(g2, file, decode, procs))
  {
    var r1 := Collect(g1, file, decode, procs);
    var r2 := Collect(g2, file, decode, procs);
    assert r1.emitted == r2.emitted;
    forall i | 0 <= i < |r1.emitted|
      ensures Value(r1.gauges, r1.emitted[i]) == Value(r2.gauges, r2.emitted[i])
    {
    }
  }

  /** What one scrape observes: the file read and the process listing. */
  datatype Observation = Observation(file: ReadOutcome, procs: Probe.ProcessList)

  /** The gauge state after a series of scrapes, oldest first. */
  function Run(g: Gauges, decode: Decoder, scrapes: seq<Observation>): Gauges
    decreases |scrapes|
  {
    if |scrapes| == 0 then g
    else Run(Collect(g, scrapes[0].file, decode, scrapes[0].procs).gauges, decode, scrapes[1..])
  }

  /** The valid record of the latest scrape that had one. */
  function LastValid(decode: Decoder, scrapes: seq<Observation>): Option<LastRunSummary>
    decreases |scrapes|
  {
    if |scrapes| == 0 then None
    else
      match LastValid(decode, scrapes[1..])
      case Some(s) => Some(s)
      case None => Load(scrapes[0].file, decode)
  }

  /**
    After any series of scrapes the last-run gauges show the latest valid
    record (or what they showed before, if no scrape had one), and the error
    indicator and liveness gauge describe the latest scrape.
   */
  lemma {:induction false} RunShowsLastValid(g: Gauges, decode: Decoder, scrapes: seq<Observation>)
    ensures Run(g, decode, scrapes).lastRun ==
              match LastValid(decode, scrapes)
              case Some(s) => Project(s)
              case None => g.lastRun
    ensures |scrapes| > 0 ==>
              var last := scrapes[|scrapes| - 1];
              && Run(g, decode, scrapes).summaryReadErr == (if Load(last.file, decode).Some? then 0.0 else 1.0)
              && Run(g, decode, scrapes).agentUp == Probe.AgentUp(last.procs)
    decreases |scrapes|
  {
    if |scrapes| > 0 {
      var g' := Collect(g, scrapes[0].file, decode, scrapes[0].procs).gauges;
      RunShowsLastValid(g', decode, scrapes[1..]);
      if |scrapes| > 1 {
        assert scrapes[1..][|scrapes[1..]| - 1] == scrapes[|scrapes| - 1];
      }
    }
  }

  /** Until a scrape succeeds, the last-run gauges keep reading zero. */
  lemma ZerosUntilFirstSuccess(decode: Decoder, scrapes: seq<Observation>)
    requires LastValid(decode, scrapes).None?
    ensures Run(Initial, decode, scrapes).lastRun == ZeroGauges
  {
    RunShowsLastValid(Initial, decode, scrapes);
  }
}
