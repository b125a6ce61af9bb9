/**
 * The logger object built by `SumoLogger(opts)`: it owns the buffer and the gate and
 * updates them in place on each event. A timer tick and the completion of the HTTP
 * request are method calls here; a tick returns the body it would POST.
 */
module SumoLogger {
  import opened Wrappers
  import opened Lines
  import opened Levels
  import opened Serialization
  import opened Config
  import opened Flush

  class Logger {
    var unsynced: seq<string>
    var numBeingSent: nat
    const collectorEndpoint: string
    const syncInterval: nat
    const maxLines: nat
    const rewriteLevels: bool

    /** The buffer and the gate as a Flush state. */
    function Snapshot(): State
      reads this
    {
      State(unsynced, numBeingSent)
    }

    ghost predicate Valid()
      reads this
    {
      Inv(Snapshot(), maxLines)
    }

    /** A logger with settings that passed validation: empty buffer, no request in flight. */
    constructor (settings: Settings)
      requires settings.maxLines > 0
      ensures Valid() && unsynced == [] && numBeingSent == 0
      ensures collectorEndpoint == settings.collectorEndpoint && syncInterval == settings.syncInterval
      ensures maxLines == settings.maxLines && rewriteLevels == settings.rewriteLevels
    {
      unsynced := [];
      numBeingSent := 0;
      collectorEndpoint := settings.collectorEndpoint;
      syncInterval := settings.syncInterval;
      maxLines := settings.maxLines;
      rewriteLevels := settings.rewriteLevels;
    }

    /**
     * `write(record)`: rewrites the record's level in place when enabled, then appends
     * its serialization; never sends.
     */
    method Write<P>(record: LogRecord<P>, enc: Encoder<P>)
      requires Valid()
      modifies this, record
      ensures Valid()
      ensures record.level == if rewriteLevels then RewriteLevel(old(record.level)) else old(record.level)
      ensures Snapshot() == WriteStep(old(Snapshot()), Serialize(enc, record.level, record.payload))
    {
      if rewriteLevels {
        SafeRewriteLevel(record);
      }
      var line := SafeToString(enc.stringify(record.level, record.payload), enc.coerce(record.level, record.payload));
      unsynced := unsynced + [line];
    }

    /** `syncLogsToSumo`: the body of the request it dispatches, if any. */
    method Tick() returns (body: Option<string>)
      requires Valid()
      modifies this
      ensures Valid()
      ensures body == TickStep(old(Snapshot()), maxLines).body
      ensures Snapshot() == TickStep(old(Snapshot()), maxLines).next
    {
      if numBeingSent > 0 {
        return None;
      }
      if |unsynced| == 0 {
        return None;
      }
      var logLines := unsynced[..Min(maxLines, |unsynced|)];
      body := Some(Join(logLines, "\n"));
      numBeingSent := |logLines|;
    }

    /** The request's completion callback, with the transport error flag and the response status. */
    method Complete(error: bool, status: int)
      requires Valid()
      modifies this
      ensures Valid()
      ensures Snapshot() == CompleteStep(old(Snapshot()), Failed(error, status))
    {
      if !Failed(error, status) {
        unsynced := unsynced[Min(numBeingSent, |unsynced|)..];
      }
      numBeingSent := 0;
    }
  }

  /** `new SumoLogger(opts)`: the validation error, or a new idle logger with the defaults filled in. */
  method NewLogger(opts: Option<Options>) returns (r: Result<Logger, string>)
    ensures r.Failure? <==> Configure(opts).Failure?
    ensures r.Failure? ==> r.error == MissingCollector
    ensures r.Success? ==> fresh(r.value) && r.value.Valid() && r.value.Snapshot() == Initial
    ensures r.Success? ==> r.value.maxLines == Configure(opts).value.maxLines
    ensures r.Success? ==> r.value.syncInterval == Configure(opts).value.syncInterval
    ensures r.Success? ==> r.value.rewriteLevels == Configure(opts).value.rewriteLevels
    ensures r.Success? ==> r.value.collectorEndpoint == Configure(opts).value.collectorEndpoint
  {
    var settings := Configure(opts);
    if settings.Failure? {
      return Failure(settings.error);
    }
    var logger := new Logger(settings.value);
    return Success(logger);
  }
}
