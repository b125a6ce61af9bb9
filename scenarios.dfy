/**
 * The syncing scenarios of the repository's test suite (test/logger.spec.js), replayed
 * on the logger's contracts. A timer period is one Tick call; the stubbed transport's
 * callback is one Complete call. Records carry a fixed serialization.
 */
module Scenarios {
  import opened Wrappers
  import opened Levels
  import opened Serialization
  import opened Config
  import opened Flush
  import opened SumoLogger

  /** Settings of the tests: default endpoint and periods, level rewriting as given. */
  function TestSettings(rewrite: bool): (s: Settings)
    ensures s.maxLines == 100
  {
    Configure(Some(Options(Some("FAKE-COLLECTOR"), None, None, None, Some(rewrite)))).value
  }

  /** An encoder under which the record serializes to `text`. */
  function Fixed(text: string): Encoder<nat> {
    Encoder((l: Level, p: nat) => Some(text), (l: Level, p: nat) => Some("[object Object]"))
  }

  /** Writes one record with a numeric level and the given serialization. */
  method WriteLine(logger: Logger, level: int, text: string)
    requires logger.Valid()
    modifies logger
    ensures logger.Valid() && logger.Snapshot() == WriteStep(old(logger.Snapshot()), text)
  {
    var record := new LogRecord<nat>(Num(level), 0);
    logger.Write(record, Fixed(text));
  }

  /** The serialized records of the tests. */
  const Message1 := "{\"level\":30,\"msg\":\"log message\"}"
  const Message2 := "{\"level\":40,\"msg\":\"log message 2\"}"

  /** "Should retry failed requests first": the failed line is resent, then leads the bigger batch. */
  method RetryFailedRequestsFirst() returns (bodies: seq<Option<string>>)
    ensures bodies == [Some(Message1), Some(Message1), Some(Message1 + "\n" + Message2)]
  {
    var first, second := Message1, Message2;
    var logger := new Logger(TestSettings(false));
    WriteLine(logger, 30, first);
    assert logger.Snapshot() == State([first], 0);
    assert Batch([first], 100) == [first];
    var b1 := logger.Tick();
    assert b1 == Some(first);
    logger.Complete(true, 0);
    assert logger.Snapshot() == State([first], 0);
    var b2 := logger.Tick();
    assert b2 == Some(first);
    logger.Complete(true, 0);
    assert logger.Snapshot() == State([first], 0);
    WriteLine(logger, 40, second);
    assert logger.Snapshot() == State([first, second], 0);
    var b3 := logger.Tick();
    assert Batch([first, second], 100) == [first, second];
    assert [first, second][1..] == [second];
    assert b3 == Some(first + "\n" + second);
    logger.Complete(true, 0);
    bodies := [b1, b2, b3];
  }

  /** "Should treat non 200/300 status codes as errors": 100, 400, 500 retry; after 200 nothing is sent. */
  method NonSuccessStatusIsRetried() returns (bodies: seq<Option<string>>)
    ensures |bodies| == 5
    ensures forall i :: 0 <= i < 4 ==> bodies[i] == Some(Message1)
    ensures bodies[4] == None
  {
    var logger := new Logger(TestSettings(false));
    WriteLine(logger, 30, Message1);
    bodies := [];
    var statuses := [100, 400, 500, 200];
    for i := 0 to 4
      invariant logger.Valid() && |bodies| == i
      invariant forall j :: 0 <= j < i ==> bodies[j] == Some(Message1)
      invariant i < 4 ==> logger.Snapshot() == State([Message1], 0)
      invariant i == 4 ==> logger.Snapshot() == Initial
    {
      var b := logger.Tick();
      logger.Complete(false, statuses[i]);
      bodies := bodies + [b];
    }
    var last := logger.Tick();
    bodies := bodies + [last];
  }

  /** "Should only have one in progress request at any time": the second period sends nothing. */
  method OneRequestAtATime() returns (bodies: seq<Option<string>>)
    ensures bodies == [Some(Message1), None]
  {
    var logger := new Logger(TestSettings(false));
    WriteLine(logger, 30, Message1);
    var b1 := logger.Tick();
    var b2 := logger.Tick();
    bodies := [b1, b2];
  }

  /** "Should not sync if there's no log data". */
  method NothingToSync() returns (bodies: seq<Option<string>>)
    ensures bodies == [None, None]
  {
    var logger := new Logger(TestSettings(false));
    var b1 := logger.Tick();
    var b2 := logger.Tick();
    bodies := [b1, b2];
  }

  /**
   * One cycle of the happy-path test on an idle, empty logger: write the lines, let a
   * period pass, answer 200. The body is the lines joined by newlines and the logger is
   * idle and empty again.
   */
  method SyncCycle(logger: Logger, lines: seq<string>) returns (body: Option<string>)
    requires logger.Valid() && logger.Snapshot() == Initial && logger.maxLines == 100
    requires 0 < |lines| <= 100
    modifies logger
    ensures logger.Valid() && logger.Snapshot() == Initial
    ensures body == Some(Lines.Join(lines, "\n"))
  {
    for i := 0 to |lines|
      invariant logger.Valid() && logger.Snapshot() == State(lines[..i], 0)
    {
      WriteLine(logger, 30, lines[i]);
      assert lines[..i + 1] == lines[..i] + [lines[i]];
    }
    assert lines[..|lines|] == lines;
    body := logger.Tick();
    logger.Complete(false, 200);
  }

  /**
   * "Should handle happy case of syncing logs successfully in each cycle": each period
   * sends, joined by newlines, exactly the lines written since the previous one.
   */
  method HappyPath(l1: string, l2: string, l3: string, l4: string, l5: string, l6: string, l7: string, l8: string)
    returns (bodies: seq<Option<string>>)
    ensures bodies == [Some(l1 + "\n" + l2 + "\n" + l3), Some(l4), Some(l5 + "\n" + l6 + "\n" + l7 + "\n" + l8)]
  {
    var logger := new Logger(TestSettings(false));
    var b1 := SyncCycle(logger, [l1, l2, l3]);
    var b2 := SyncCycle(logger, [l4]);
    var b3 := SyncCycle(logger, [l5, l6, l7, l8]);
    assert [l1, l2, l3][1..] == [l2, l3] && [l2, l3][1..] == [l3];
    assert [l5, l6, l7, l8][1..] == [l6, l7, l8] && [l6, l7, l8][1..] == [l7, l8] && [l7, l8][1..] == [l8];
    assert Lines.Join([l1, l2, l3], "\n") == l1 + "\n" + l2 + "\n" + l3;
    assert Lines.Join([l6, l7, l8], "\n") == l6 + "\n" + l7 + "\n" + l8;
    assert Lines.Join([l5, l6, l7, l8], "\n") == l5 + "\n" + l6 + "\n" + l7 + "\n" + l8;
    bodies := [b1, b2, b3];
  }

  /** "Should rewrite level names correctly": each code's record leaves `write` with its name. */
  method RewriteLevelNames() returns (levels: seq<Level>)
    ensures levels == [Str("TRACE"), Str("DEBUG"), Str("INFO"), Str("WARN"), Str("ERROR"), Str("FATAL")]
  {
    var logger := new Logger(TestSettings(true));
    var codes := [10, 20, 30, 40, 50, 60];
    levels := [];
    for i := 0 to 6
      invariant logger.Valid() && logger.rewriteLevels && |levels| == i
      invariant forall j :: 0 <= j < i ==> levels[j] == RewriteLevel(Num(codes[j]))
    {
      var record := new LogRecord<nat>(Num(codes[i]), 0);
      logger.Write(record, Fixed("{}"));
      levels := levels + [record.level];
    }
    RewriteNumericLevel(10); RewriteNumericLevel(20); RewriteNumericLevel(30);
    RewriteNumericLevel(40); RewriteNumericLevel(50); RewriteNumericLevel(60);
  }
}
