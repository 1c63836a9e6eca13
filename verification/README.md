# Puppet last-run exporter: the collection step

This project models the core of a Prometheus exporter for the Puppet agent.
On every scrape the exporter reads the agent's `last_run_summary.yaml`,
decodes it into a fixed record (run duration, last-run timestamp, three event
counts, four resource counts), probes the process table for a `puppet`
executable, and publishes the results as gauges.

The repository carries two variants of the collector, and both are modelled:

- `internal/exporter/main.go` is the labelled exporter, modelled as module `Exporter`. It has twelve gauges,
  including `exporter_up` and the `summary_read_err` error indicator. A scrape that cannot read
  the file, cannot decode it, or decodes a record whose `last_run` is 0
  raises the indicator. It leaves the nine last-run gauges at their earlier
  values and emits only `exporter_up`, `agent_up` and `summary_read_err`.
- `main.go` is the unlabelled exporter, modelled as module `MainExporter`. It has ten gauges and no error
  indicator. Read and decode errors are only logged. The record starts zeroed,
  so every scrape overwrites all nine last-run gauges from whatever the
  decoder left in it, and emits the same ten gauges in declaration order.

A scrape is a pure transition. It takes the gauge state, the read outcome, the
decoder and the process listing. It returns the new gauge state and the
sequence of gauges sent on the collector's channel. The other modules:

- `Summary` holds the record, the read outcome and the decoder type.
- `Metrics` holds the gauge names, the nine summary-derived gauges, and the projection of a record onto them.
- `Probe` holds `SearchPuppetProc`.
- `Config` holds the rule that chooses the listen address and summary path. A flag wins when it differs
  from its default. Otherwise a non-empty environment variable wins. Otherwise the default applies.

The inputs of the collection step are parameters:

- The file read is a `ReadOutcome`. On an error it carries the bytes Go's file reader returns alongside
  that error: none when the file cannot be opened, the bytes read so far when
  reading broke off.
- The YAML decoder is a function `Bytes -> Option<LastRunSummary>`.
- The process table is a `Result<seq<string>, string>` of executable names.

Gauge values are `real`. The conversion of integer fields to `float64` is
taken as exact.

In the labelled exporter, stale last-run values are kept in the gauges but are never emitted on a
failing scrape. A successful scrape overwrites them before emitting them. So
what any scrape hands over does not depend on the state before it
(`Exporter.ExpositionIgnoresPriorState`). The retained values matter only to
a reader of the gauge objects themselves.

Unlike the labelled exporter, the unlabelled one keeps nothing stale: it republishes zeros, a
zero-timestamp record, or whatever a partial read decodes to, where the labelled exporter would keep its earlier values
(`MainExporter.CollectForgetsPriorState`, `MainExporter.ZeroTimestampPublished`).

## Model

| member | source | states |
|---|---|---|
| `Probe.SearchPuppetProc` | internal/exporter/main.go:50-63 | The loop returns 1 exactly when the listing succeeded and some executable name equals `puppet`, and 0 otherwise, including when enumeration failed. It agrees with `Probe.AgentUp`. |
| `Probe.AgentUp` | main.go:52-65 | The probe value is 0 or 1. It is 1 iff the listing succeeded and contains `puppet`, and 0 on an enumeration error. |
| `Probe.Scan` | main.go:58-64 | The first-match scan is 1 iff `puppet` occurs among the names, and 0 otherwise. |
| `Exporter.Collect` | internal/exporter/main.go:65-119 | Every scrape sets `exporter_up` to 1 and `agent_up` to the probe. With no valid record (read error, decode error or zero timestamp), `summary_read_err` becomes 1, the last-run gauges are unchanged, and the emission is `exporter_up, agent_up, summary_read_err`. With a valid record, the nine gauges equal its fields, the indicator is 0, and the emission is `exporter_up, agent_up`, the nine in declaration order, then `summary_read_err`. |
| `Exporter.DecodeFailureLikeReadFailure` | internal/exporter/main.go:75-90 | A decode error gives exactly the same state and emission as a read error. |
| `Exporter.ZeroTimestampLikeReadFailure` | internal/exporter/main.go:91-96 | A decoded record with `last_run == 0` gives exactly the same state and emission as a read error. |
| `Exporter.CollectIdempotent` | internal/exporter/main.go:65-119 | A second scrape with the same read, decode and probe outcomes yields the same state and emission as the first, on both branches. |
| `Exporter.Describe` | internal/exporter/main.go:121-134 | Twelve gauges are described, none twice, and every metric is among them. |
| `Exporter.EveryGaugeDeclared` | internal/exporter/main.go:36-47 | Each of the twelve metrics is a declared gauge of the exporter. |
| `Exporter.EmissionDescribed` | internal/exporter/main.go:72-134 | Every emitted gauge is described and none is emitted twice. A successful scrape emits exactly the described gauges, as a multiset. |
| `Exporter.SuccessEmissionReordersDeclared` | internal/exporter/main.go:109-133 | The success emission is a repetition-free permutation of the declaration order. |
| `Exporter.ExpositionIgnoresPriorState` | internal/exporter/main.go:72-118 | The names and values a scrape hands over are the same whatever the gauge state before it. Stale values are never exposed. |
| `Exporter.RunShowsLastValid` | internal/exporter/main.go:75-107 | After any series of scrapes, the last-run gauges show the latest valid record, or their earlier values if no scrape had one. `summary_read_err` and `agent_up` describe the latest scrape. |
| `Exporter.ZerosUntilFirstSuccess` | internal/exporter/main.go:142-218 | All twelve gauges are created at 0. The nine last-run gauges read 0 until some scrape finds a valid record. |
| `MainExporter.Collect` | main.go:67-103 | Every scrape emits the ten described gauges in declaration order and sets `agent_up` from the probe. It sets the nine last-run gauges from the decoded record, even one with a zero timestamp or one read from a failed read. On a decode error they are set from the zero record. |
| `MainExporter.Describe` | main.go:105-116 | Ten gauges are described, none twice: every metric except `exporter_up` and `summary_read_err`. |
| `MainExporter.DeclaredGauges` | main.go:36-50 | The declared gauges are exactly the metrics other than `exporter_up` and `summary_read_err`. |
| `MainExporter.CollectForgetsPriorState` | main.go:71-91 | The new state and emission do not depend on the state before the scrape: nothing stale is kept. |
| `MainExporter.OpenFailurePublishesZeros` | main.go:71-77 | When the file cannot be opened, the decoder gets an empty document. If the decoder reads that as the zero record or rejects it, every last-run gauge is published as 0. |
| `MainExporter.ZeroTimestampPublished` | main.go:76-90 | A decoded record with a zero timestamp is published as it stands. |
| `Metrics.Project` | internal/exporter/main.go:98-106 | Each of the nine last-run gauges is set from its own record field: the duration as is, every integer converted to a float. The same nine `Set` calls appear at main.go lines 82-90. |
| `Metrics.RecoverProject` | internal/exporter/main.go:98-106 | Publishing a record loses nothing. Each field lands in its own gauge, and the record can be read back from the nine gauges. |
| `Metrics.ProjectZero` | main.go:82-90 | The zero record publishes 0 on all nine last-run gauges. |
| `Metrics.NamesDistinct` | internal/exporter/main.go:145-218 | No two gauges share a name. |
| `Config.Resolve` | main.go:201-206 | A flag value that differs from the default is kept. Otherwise a non-empty environment value is used. Otherwise the default stands. |
| `Config.ResolveIsFirstSet` | main.go:201-206 | Resolving equals taking the first set source, flag then environment, with the default as fallback. |
| `Config.ListenAtDefaultOverridden` | main.go:201-203 | A `--listen` flag passed explicitly with its default value is still overridden by a non-empty `LISTEN`, whatever the summary-path inputs. |
| `Config.SummaryFileAtDefaultOverridden` | main.go:204-206 | A `--summary-file` flag passed explicitly with its default value is still overridden by a non-empty `SUMMARY_FILE`, whatever the listen inputs. |
| `Config.Configure` | main.go:201-206 | Each of the two settings is the first set source among its flag (set when it differs from the default) and its environment variable (set when non-empty), else the default. With `Config.MainDefaults` (the defaults at main.go lines 183 and 192) this is the root entry point's rule; with `Config.CmdDefaults` it is also the rule at cmd/prometheus-puppet-exporter/main.go lines 39-44. |
| `Config.SettingsIndependent` | main.go:201-206 | The listen address depends only on its own flag, default and `LISTEN`. The summary path depends only on its own flag, default and `SUMMARY_FILE`. |

## Left out

- YAML decoding (`yaml.Unmarshal`) is a foreign library. It is the parameter `decode`, which accepts a document or rejects it.
- MainExporter.Collect: on a decode error the record is taken as the zero record. yaml.v2 may fill some fields before it fails; the model publishes zeros instead of yaml.v2's partial fill.
- MainExporter.OpenFailurePublishesZeros: assumes the decoder reads an empty document as the zero record or rejects it. This is how the decoder behaves, and it is stated as a precondition.
- Process enumeration (`ps.Processes`) is an OS call. It is the parameter `procs`. Name truncation by the process table is not modelled.
- File reading (`ioutil.ReadFile`) is I/O. It is the parameter `file`.
- The mutex around `Collect` is left out. Each scrape is one atomic transition, and interleavings are not modelled.
- Prometheus plumbing is left out: gauge and descriptor construction, the `puppet` namespace, help strings, registration. Emitted gauges are modelled as `Metrics.Metric` values; `Metrics.Name` gives each its gauge name. Their values are read from the state the scrape leaves.
- The hostname lookup and its panic in `CreateLastRunSummaryExporter` are an OS call. The `hostname` constant label is left out with it.
- HTTP (`RootHandler`, `ListenAndServe`, the fatal bind failure) is network plumbing.
- Floating point is not modelled. Gauges hold reals. `time_total` is a real. Integer-to-float64 conversion is taken as exact, so integers above 2^53 are not rounded. The 64-bit range of Go's `int` is not modelled either.
- Log messages are left out. This includes the `nil` error logged for a zero timestamp in the labelled exporter.
- `cmd/prometheus-puppet-exporter/main.go` is composition only. Its precedence rule is the one in `Config.Resolve`. Its different default path is `Config.CmdDefaults`.
- Flag parsing (`pflag`) is left out. The parsed flag values are an input, and a flag that is not passed reads as its default.
