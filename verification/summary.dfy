/**
  The agent's last-run summary document as both exporter variants decode it,
  and the two fallible steps that produce it: reading the file and decoding
  its YAML text.
 */
module Summary {
  import opened Wrappers

  newtype byte = b: int | 0 <= b < 256

  type Bytes = seq<byte>

  /** The `time` section: run duration in seconds and the epoch of the run. */
  datatype TimeSection = TimeSection(total: real, lastRun: int)

  /** The `events` section of the summary. */
  datatype EventsSection = EventsSection(failure: int, success: int, total: int)

  /** The `resources` section of the summary. */
  datatype ResourcesSection = ResourcesSection(failed: int, skipped: int, total: int, changed: int)

  /** The decoded summary record. Missing fields decode to zero. */
  datatype LastRunSummary = LastRunSummary(time: TimeSection, events: EventsSection, resources: ResourcesSection)

  /** The zero-initialised record that decoding starts from. */
  const Zero: LastRunSummary :=
    LastRunSummary(TimeSection(0.0, 0), EventsSection(0, 0, 0), ResourcesSection(0, 0, 0, 0))

  /**
    The outcome of reading the summary file. On failure Go's file reader
    still hands back a byte slice: nil when the file could not be opened,
    the bytes read so far when reading broke off.
   */
  datatype ReadOutcome = ReadOk(content: Bytes) | ReadErr(partial: Bytes)

  /** The bytes the collector goes on to decode, whatever the read outcome. */
  function Returned(file: ReadOutcome): Bytes {
    match file
    case ReadOk(content) => content
    case ReadErr(partial) => partial
  }

  /**
    The YAML decoder, a foreign library: `Some(record)` when it accepts the
    document, `None` when it reports an error.
   */
  type Decoder = Bytes -> Option<LastRunSummary>
}
