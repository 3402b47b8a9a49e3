/** The background worker of Aplite/worker_src/worker.c: it keeps the
    activity counter, feeds accelerometer batches to the sliding recognizer,
    logs a 24-byte record at most once a minute, clears the counter once a
    day at the configured minute, and exchanges `AppWorkerMessage`s with the
    watchface. `time(NULL)` is the parameter `now` (one value per callback)
    and the local time of day is `secondsSinceMidnight`. */
module Worker {
  import opened Machine
  import opened Activity
  import opened Classifier
  import opened Persist
  import opened Messages
  import opened Window
  import SlidingRecognizer

  datatype Option<T> = None | Some(value: T)

  /** DATA_LOG_INTERVAL_S: seconds between two data-log records. */
  const DATA_LOG_INTERVAL: uint32 := 60

  /** Persistent keys of the settings the worker reads. */
  const RESET_TIME_KEY: int := 7
  const DRIVING_KEY: int := 9
  const SENSITIVITY_KEY: int := 11

  /** The worker's settings: reset minute of the day, driving flag and
      pedometer sensitivity. */
  datatype WorkerConfig = WorkerConfig(resetTime: int32, isDriving: bool, sensitivity: int32)

  const DEFAULT_CONFIG := WorkerConfig(0, false, 20)

  /** `loadConfig`: absent keys give reset minute 0, not driving, sensitivity 20. */
  function LoadConfig(s: Store): WorkerConfig
  {
    WorkerConfig(ReadInt(s, RESET_TIME_KEY, 0), ReadBool(s, DRIVING_KEY, false), ReadInt(s, SENSITIVITY_KEY, 20))
  }

  /** The settings messages of `workerMessageReceived`: tag 101 sets the
      sensitivity, 102 the reset minute, 103 the driving flag (any non-zero
      payload is true); any other tag leaves the settings alone. */
  function Control(cfg: WorkerConfig, msg: WorkerMessage): WorkerConfig
  {
    if msg.tag == SENSITIVITY_TAG then cfg.(sensitivity := msg.data0)
    else if msg.tag == RESET_TIME_TAG then cfg.(resetTime := msg.data0)
    else if msg.tag == DRIVING_TAG then cfg.(isDriving := msg.data0 != 0)
    else cfg
  }

  /** Messages handled in order. */
  function ControlAll(cfg: WorkerConfig, msgs: seq<WorkerMessage>): WorkerConfig
    decreases |msgs|
  {
    if |msgs| == 0 then cfg else ControlAll(Control(cfg, msgs[0]), msgs[1..])
  }

  /** A settings message sets exactly the setting its tag names. */
  lemma ControlSetsOneSetting(cfg: WorkerConfig, msg: WorkerMessage)
    ensures Control(cfg, msg).sensitivity == if msg.tag == SENSITIVITY_TAG then msg.data0 else cfg.sensitivity
    ensures Control(cfg, msg).resetTime == if msg.tag == RESET_TIME_TAG then msg.data0 else cfg.resetTime
    ensures Control(cfg, msg).isDriving == if msg.tag == DRIVING_TAG then msg.data0 != 0 else cfg.isDriving
  {
  }

  /** The moment of today's reset as the worker computes it in `uint32_t`:
      now, minus the seconds since midnight, plus the reset minute. */
  function ResetInstant(now: uint32, secondsSinceMidnight: nat, resetMinutes: int32): uint32
  {
    Wrap32(now - secondsSinceMidnight + resetMinutes * 60)
  }

  /** The reset fires when the reset instant lies between the last check and now. */
  predicate ResetDue(lastTimestamp: uint32, now: uint32, secondsSinceMidnight: nat, resetMinutes: int32)
  {
    var r := ResetInstant(now, secondsSinceMidnight, resetMinutes);
    lastTimestamp <= r && r <= now
  }

  /** Away from the ends of the `uint32_t` range, the reset fires exactly
      when today's reset minute has passed and the last check came before it. */
  lemma ResetDueWhenMinutePassed(lastTimestamp: uint32, now: uint32, secondsSinceMidnight: nat, resetMinutes: int32)
    requires secondsSinceMidnight <= now && 0 <= resetMinutes
    requires now - secondsSinceMidnight + resetMinutes * 60 < U32_MODULUS
    ensures ResetDue(lastTimestamp, now, secondsSinceMidnight, resetMinutes)
      <==> resetMinutes * 60 <= secondsSinceMidnight
           && lastTimestamp <= now - secondsSinceMidnight + resetMinutes * 60
  {
  }

  /** The cleared counter: no time, no steps, timestamp now. */
  function ClearedCounter(now: uint32): Counter
  {
    Counter(0, 0, 0, 0, now, 0)
  }

  /** The data-log record: the uint32 differences of the four buckets and
      of the steps since the last record, then the timestamp, each in
      little-endian byte order. */
  function Record(c: Counter, last: Counter): (b: seq<uint8>)
    ensures |b| == 24
  {
    LittleEndian32(Sub32(c.sleepTime, last.sleepTime)) + LittleEndian32(Sub32(c.sitTime, last.sitTime))
    + LittleEndian32(Sub32(c.walkTime, last.walkTime)) + LittleEndian32(Sub32(c.jogTime, last.jogTime))
    + LittleEndian32(Sub32(c.steps, last.steps)) + LittleEndian32(c.timestamp)
  }

  /** The i-th `uint32_t` of a record, as the companion app reads it. */
  function RecordField(b: seq<uint8>, i: nat): uint32
    requires |b| == 24 && i < 6
  {
    FromLittleEndian32(b[4 * i..4 * i + 4])
  }

  /** A record decodes to the differences it was built from: adding each one
      to the previous counter gives the current one, and the last field is
      the current timestamp. */
  lemma RecordRoundTrip(c: Counter, last: Counter)
    ensures var b := Record(c, last);
      && Add32(last.sleepTime, RecordField(b, 0)) == c.sleepTime
      && Add32(last.sitTime, RecordField(b, 1)) == c.sitTime
      && Add32(last.walkTime, RecordField(b, 2)) == c.walkTime
      && Add32(last.jogTime, RecordField(b, 3)) == c.jogTime
      && Add32(last.steps, RecordField(b, 4)) == c.steps
      && RecordField(b, 5) == c.timestamp
  {
    var d0, d1, d2 := Sub32(c.sleepTime, last.sleepTime), Sub32(c.sitTime, last.sitTime), Sub32(c.walkTime, last.walkTime);
    var d3, d4 := Sub32(c.jogTime, last.jogTime), Sub32(c.steps, last.steps);
    var b := Record(c, last);
    assert b[0..4] == LittleEndian32(d0);
    assert b[4..8] == LittleEndian32(d1);
    assert b[8..12] == LittleEndian32(d2);
    assert b[12..16] == LittleEndian32(d3);
    assert b[16..20] == LittleEndian32(d4);
    assert b[20..24] == LittleEndian32(c.timestamp);
    LittleEndian32RoundTrip(d0);
    LittleEndian32RoundTrip(d1);
    LittleEndian32RoundTrip(d2);
    LittleEndian32RoundTrip(d3);
    LittleEndian32RoundTrip(d4);
    LittleEndian32RoundTrip(c.timestamp);
    SubAddCancel(c.sleepTime, last.sleepTime);
    SubAddCancel(c.sitTime, last.sitTime);
    SubAddCancel(c.walkTime, last.walkTime);
    SubAddCancel(c.jogTime, last.jogTime);
    SubAddCancel(c.steps, last.steps);
  }

  /** The counter, the last logged counter and the record after a window. */
  datatype LogStep = LogStep(counter: Counter, last: Counter, record: Option<seq<uint8>>)

  /** The bookkeeping after a classified window: once a minute has passed
      since the last record, log a record, clear the counter if the daily
      reset is due, and remember the counter as the last logged one. */
  function LogAndReset(c: Counter, last: Counter, now: uint32, secondsSinceMidnight: nat, resetMinutes: int32): LogStep
  {
    if Sub32(c.timestamp, last.timestamp) >= DATA_LOG_INTERVAL then
      var next := if ResetDue(last.timestamp, now, secondsSinceMidnight, resetMinutes) then ClearedCounter(now) else c;
      LogStep(next, next, Some(Record(c, last)))
    else
      LogStep(c, last, None)
  }

  /** A record is written exactly when a minute has passed since the last
      one; it then describes the counter before any reset, and the counter
      is either kept or cleared, never otherwise changed. */
  lemma LoggingRule(c: Counter, last: Counter, now: uint32, secondsSinceMidnight: nat, resetMinutes: int32)
    ensures var r := LogAndReset(c, last, now, secondsSinceMidnight, resetMinutes);
      && (r.record.Some? <==> Sub32(c.timestamp, last.timestamp) >= DATA_LOG_INTERVAL)
      && (r.record.Some? ==> r.record.value == Record(c, last) && r.last == r.counter)
      && (r.record.None? ==> r.counter == c && r.last == last)
      && (r.counter == c || r.counter == ClearedCounter(now))
      && (r.counter == ClearedCounter(now) && r.counter != c ==> ResetDue(last.timestamp, now, secondsSinceMidnight, resetMinutes))
  {
  }

  /** Once the reset has fired, checking again at the same moment changes
      nothing more: the counter is already clear. */
  lemma ResetIdempotent(c: Counter, last: Counter, now: uint32, secondsSinceMidnight: nat, resetMinutes: int32)
    requires Sub32(c.timestamp, last.timestamp) >= DATA_LOG_INTERVAL
    requires ResetDue(last.timestamp, now, secondsSinceMidnight, resetMinutes)
    ensures var r := LogAndReset(c, last, now, secondsSinceMidnight, resetMinutes);
      && r.counter == ClearedCounter(now)
      && LogAndReset(r.counter, r.last, now, secondsSinceMidnight, resetMinutes) == LogStep(r.counter, r.last, None)
  {
    var r := LogAndReset(c, last, now, secondsSinceMidnight, resetMinutes);
    assert Sub32(r.counter.timestamp, r.last.timestamp) == 0;
  }

  /** The rule as written fires twice for one reset instant when a record
      lands exactly on it: the last logged timestamp is then the instant
      itself, which `<=` admits again at the next record of the same day,
      so whatever was booked in between is cleared. */
  lemma ResetFiresTwiceAsWritten(c: Counter, last: Counter, now: uint32, secondsSinceMidnight: nat,
                                 c2: Counter, now2: uint32, secondsSinceMidnight2: nat, resetMinutes: int32)
    requires Sub32(c.timestamp, last.timestamp) >= DATA_LOG_INTERVAL
    requires ResetDue(last.timestamp, now, secondsSinceMidnight, resetMinutes)
    requires ResetInstant(now, secondsSinceMidnight, resetMinutes) == now
    requires ResetInstant(now2, secondsSinceMidnight2, resetMinutes) == now <= now2
    requires Sub32(c2.timestamp, now) >= DATA_LOG_INTERVAL
    ensures var r := LogAndReset(c, last, now, secondsSinceMidnight, resetMinutes);
      && r.counter == ClearedCounter(now)
      && LogAndReset(c2, r.last, now2, secondsSinceMidnight2, resetMinutes).counter == ClearedCounter(now2)
  {
  }

  /** An instance: reset minute 720 (noon), a record at 12:00:00 clears the
      counter, and the record at 12:01:00 clears the minute of sitting booked
      since. */
  lemma DoubleResetExample()
    ensures var r1 := LogAndReset(Counter(0, 7200, 0, 0, 43200, 0), Counter(0, 0, 0, 0, 36000, 0), 43200, 43200, 720);
      var c2 := r1.counter.(sitTime := 60, timestamp := 43260);
      var r2 := LogAndReset(c2, r1.last, 43260, 43260, 720);
      && r1.counter == ClearedCounter(43200)
      && c2.sitTime == 60 && r2.counter == ClearedCounter(43260) && r2.counter.sitTime == 0
  {
    ResetFiresTwiceAsWritten(Counter(0, 7200, 0, 0, 43200, 0), Counter(0, 0, 0, 0, 36000, 0), 43200, 43200,
                             Counter(0, 60, 0, 0, 43260, 0), 43260, 43260, 720);
  }

  /** The evidently intended rule: the reset instant lies after the last
      check and not after now, so each instant is crossed by one check only. */
  predicate ResetDueOnce(lastTimestamp: uint32, now: uint32, secondsSinceMidnight: nat, resetMinutes: int32)
  {
    var r := ResetInstant(now, secondsSinceMidnight, resetMinutes);
    lastTimestamp < r && r <= now
  }

  /** The bookkeeping of `LogAndReset` under the intended reset rule. */
  function LogAndResetOnce(c: Counter, last: Counter, now: uint32, secondsSinceMidnight: nat, resetMinutes: int32): LogStep
  {
    if Sub32(c.timestamp, last.timestamp) >= DATA_LOG_INTERVAL then
      var next := if ResetDueOnce(last.timestamp, now, secondsSinceMidnight, resetMinutes) then ClearedCounter(now) else c;
      LogStep(next, next, Some(Record(c, last)))
    else
      LogStep(c, last, None)
  }

  /** The two rules disagree only when the last check was at the reset
      instant itself. */
  lemma ResetRulesDifferOnlyAtInstant(lastTimestamp: uint32, now: uint32, secondsSinceMidnight: nat, resetMinutes: int32)
    ensures ResetDue(lastTimestamp, now, secondsSinceMidnight, resetMinutes)
      <==> ResetDueOnce(lastTimestamp, now, secondsSinceMidnight, resetMinutes)
           || (lastTimestamp == ResetInstant(now, secondsSinceMidnight, resetMinutes) && lastTimestamp <= now)
  {
  }

  /** Under the intended rule the reset fires at most once per instant: once
      it has fired, a later record whose reset instant is the same one keeps
      its counter, while a record landing on the instant still fires. */
  lemma ResetAtMostOnce(c: Counter, last: Counter, now: uint32, secondsSinceMidnight: nat,
                        c2: Counter, now2: uint32, secondsSinceMidnight2: nat, resetMinutes: int32)
    requires Sub32(c.timestamp, last.timestamp) >= DATA_LOG_INTERVAL
    requires ResetDueOnce(last.timestamp, now, secondsSinceMidnight, resetMinutes)
    requires ResetInstant(now2, secondsSinceMidnight2, resetMinutes) == ResetInstant(now, secondsSinceMidnight, resetMinutes)
    ensures var r := LogAndResetOnce(c, last, now, secondsSinceMidnight, resetMinutes);
      && r.counter == ClearedCounter(now) && r.last.timestamp == now
      && LogAndResetOnce(c2, r.last, now2, secondsSinceMidnight2, resetMinutes).counter == c2
  {
  }

  /** On the instance above, the intended rule clears the counter at noon
      and keeps the minute of sitting at the next record. */
  lemma SingleResetExample()
    ensures var r1 := LogAndResetOnce(Counter(0, 7200, 0, 0, 43200, 0), Counter(0, 0, 0, 0, 36000, 0), 43200, 43200, 720);
      var c2 := r1.counter.(sitTime := 60, timestamp := 43260);
      var r2 := LogAndResetOnce(c2, r1.last, 43260, 43260, 720);
      && r1.counter == ClearedCounter(43200) && r2.counter == c2 && r2.counter.sitTime == 60
  {
    ResetAtMostOnce(Counter(0, 7200, 0, 0, 43200, 0), Counter(0, 0, 0, 0, 36000, 0), 43200, 43200,
                    Counter(0, 60, 0, 0, 43260, 0), 43260, 43260, 720);
  }

  /** The counter after the start-up check of `init`: cleared if the reset
      fell between the saved timestamp and now, and in any case stamped now. */
  function StartupCounter(c: Counter, now: uint32, secondsSinceMidnight: nat, resetMinutes: int32): Counter
  {
    var kept := if ResetDue(c.timestamp, now, secondsSinceMidnight, resetMinutes) then ClearedCounter(now) else c;
    kept.(timestamp := now)
  }

  /** Time the worker was not running is booked to no activity: after start
      up every bucket and the steps are either as saved or cleared, and the
      next window measures from now. */
  lemma StartupBooksNoOfflineTime(c: Counter, now: uint32, secondsSinceMidnight: nat, resetMinutes: int32)
    ensures var r := StartupCounter(c, now, secondsSinceMidnight, resetMinutes);
      && r.timestamp == now
      && (ResetDue(c.timestamp, now, secondsSinceMidnight, resetMinutes) ==> Total(r) == 0 && r.steps == 0)
      && (!ResetDue(c.timestamp, now, secondsSinceMidnight, resetMinutes) ==>
            (forall k :: 0 <= k < 4 ==> Bucket(r, k) == Bucket(c, k)) && r.steps == c.steps)
  {
  }

  class WorkerState {
    var isDriving: bool
    var resetTime: int32
    var sensitivity: int32
    var counter: Counter
    var lastCounter: Counter
    var activityType: nat
    const recognizer: SlidingRecognizer.Recognizer

    ghost predicate Valid()
      reads this, recognizer
    {
      && recognizer.Valid()
      && recognizer.sampleSize == SAMPLE_SIZE
      && recognizer.rule == SLIDING_RULE
    }

    /** The settings as one value. */
    function Config(): WorkerConfig
      reads this
    {
      WorkerConfig(resetTime, isDriving, sensitivity)
    }

    /** The static initial values: default settings, activity type 0, and
        an empty sample buffer. */
    constructor()
      ensures Valid() && Config() == DEFAULT_CONFIG && activityType == 0
      ensures fresh(recognizer) && fresh(recognizer.buffer) && recognizer.dataSize == 0
    {
      isDriving := false;
      resetTime := 0;
      sensitivity := 20;
      activityType := 0;
      counter := Counter(0, 0, 0, 0, 0, 0);
      lastCounter := Counter(0, 0, 0, 0, 0, 0);
      recognizer := new SlidingRecognizer.Recognizer(SAMPLE_SIZE, SLIDING_RULE);
    }

    /** `loadStatus`. */
    method LoadStatus(s: Store, now: uint32)
      modifies this
      ensures counter == LoadCounter(s, STATUS_LAYOUT, now)
      ensures Config() == old(Config()) && lastCounter == old(lastCounter) && activityType == old(activityType)
    {
      var sleepTime := ReadUint(s, 0, 0);
      var sitTime := ReadUint(s, 1, 0);
      var walkTime := ReadUint(s, 2, 0);
      var jogTime := ReadUint(s, 3, 0);
      var steps := ReadUint(s, 4, 0);
      var timestamp := if 5 in s then U32OfI32(s[5]) else now;
      counter := Counter(sleepTime, sitTime, walkTime, jogTime, timestamp, steps);
    }

    /** `loadConfig`. */
    method LoadSettings(s: Store)
      modifies this
      ensures Config() == LoadConfig(s)
      ensures counter == old(counter) && lastCounter == old(lastCounter) && activityType == old(activityType)
    {
      resetTime := ReadInt(s, RESET_TIME_KEY, 0);
      isDriving := ReadBool(s, DRIVING_KEY, false);
      sensitivity := ReadInt(s, SENSITIVITY_KEY, 20);
    }

    /** `saveStatus`: the counter under keys 0-5, steps before timestamp. */
    method SaveStatus(s: Store) returns (saved: Store)
      ensures saved == SaveCounter(s, STATUS_LAYOUT, counter)
      ensures LoadCounter(saved, STATUS_LAYOUT, 0) == counter
    {
      saved := WriteUint(s, 0, counter.sleepTime);
      saved := WriteUint(saved, 1, counter.sitTime);
      saved := WriteUint(saved, 2, counter.walkTime);
      saved := WriteUint(saved, 3, counter.jogTime);
      saved := WriteUint(saved, 4, counter.steps);
      saved := WriteUint(saved, 5, counter.timestamp);
      CounterRoundTrip(s, STATUS_LAYOUT, counter, 0);
    }

    /** `sendStatusToWatchface`: returns the messages sent. */
    method SendStatusToWatchface() returns (sent: seq<WorkerMessage>)
      ensures sent == StatusMessages(counter, activityType)
      ensures forall m: Mailbox :: DeliverAll(m, sent).counter.steps == ToU16(counter.steps)
    {
      sent := [];
      sent := sent + [WorkerMessage(SLEEP_TAG, ToU16(counter.sleepTime))];
      sent := sent + [WorkerMessage(SIT_TAG, ToU16(counter.sitTime))];
      sent := sent + [WorkerMessage(WALK_TAG, ToU16(counter.walkTime))];
      sent := sent + [WorkerMessage(JOG_TAG, ToU16(counter.jogTime))];
      sent := sent + [WorkerMessage(STEPS_TAG, ToU16(counter.steps))];
      sent := sent + [WorkerMessage(TYPE_TAG, ToU16(activityType))];
      assert sent == StatusMessages(counter, activityType);
      forall m: Mailbox
        ensures DeliverAll(m, sent).counter.steps == ToU16(counter.steps)
      {
        StatusPushSynchronises(m, counter, activityType);
      }
    }

    /** `processAccelerometerData`: one batch through the recognizer; after
        a classified window, the data log and daily reset, then the status
        push. `project` is the floating-point projection of a full buffer.
        Also returns the recognizer's code and, as a ghost, its counter. The
        code depends only on the fill level: no samples, a buffer still not
        full (the taken part of the batch is copied in), or a full buffer,
        which is classified and then slides by half. */
    method ProcessAccelerometerData(acceleration: seq<AccelData>, now: uint32, secondsSinceMidnight: nat,
                                    project: seq<AccelData> -> Projection)
      returns (code: nat, ghost analyzed: Counter, record: Option<seq<uint8>>, sent: seq<WorkerMessage>)
      requires Valid()
      requires forall w :: |project(w).rows| == |w|
      modifies this, recognizer, recognizer.buffer
      ensures Valid() && Config() == old(Config())
      ensures |acceleration| == 0 ==>
        && code == SlidingRecognizer.NO_SAMPLES
        && recognizer.dataSize == old(recognizer.dataSize) && recognizer.buffer[..] == old(recognizer.buffer[..])
      ensures |acceleration| > 0 ==>
        var k := SlidingRecognizer.Taken(old(recognizer.dataSize), |acceleration|, SAMPLE_SIZE);
        var filled := SlidingRecognizer.Filled(old(recognizer.buffer[..]), old(recognizer.dataSize), acceleration, k);
        if old(recognizer.dataSize) + k < SAMPLE_SIZE then
          && code == SlidingRecognizer.COLLECTING
          && recognizer.dataSize == old(recognizer.dataSize) + k && recognizer.buffer[..] == filled
        else
          var rows := project(filled).rows;
          && code == SlidingRecognizer.ANALYZED
          && recognizer.dataSize == SAMPLE_SIZE / 2
          && recognizer.buffer[..SAMPLE_SIZE / 2] == rows[SAMPLE_SIZE / 2..2 * (SAMPLE_SIZE / 2)]
          && recognizer.buffer[SAMPLE_SIZE / 2..] == rows[SAMPLE_SIZE / 2..]
      ensures code != SlidingRecognizer.ANALYZED ==>
        && counter == old(counter) && lastCounter == old(lastCounter) && activityType == old(activityType)
        && record == None && sent == []
      ensures code == SlidingRecognizer.ANALYZED ==>
        var k := SlidingRecognizer.Taken(old(recognizer.dataSize), |acceleration|, SAMPLE_SIZE);
        var p := project(SlidingRecognizer.Filled(old(recognizer.buffer[..]), old(recognizer.dataSize), acceleration, k));
        && Outcome(activityType, analyzed)
           == Analyze(old(counter), Classify(p.feature), isDriving, sensitivity, now, p.feature.meanV, p.rows, SLIDING_RULE)
        && analyzed.timestamp == now
        && Total(analyzed) == Add32(Total(old(counter)), Sub32(now, old(counter).timestamp))
        && activityType < 4
        && LogStep(counter, lastCounter, record)
           == LogAndReset(analyzed, old(lastCounter), now, secondsSinceMidnight, resetTime)
        && sent == StatusMessages(counter, activityType)
    {
      ghost var buffer0, dataSize0, counter0 := recognizer.buffer[..], recognizer.dataSize, counter;
      var t, c;
      code, t, c := recognizer.AnalyzeAcceleration(activityType, counter, isDriving, sensitivity, acceleration, now, project);
      activityType, counter := t, c;
      analyzed := c;
      record, sent := None, [];
      if code == SlidingRecognizer.ANALYZED {
        ghost var k := SlidingRecognizer.Taken(dataSize0, |acceleration|, SAMPLE_SIZE);
        ghost var p := project(SlidingRecognizer.Filled(buffer0, dataSize0, acceleration, k));
        TimeConserved(counter0, Classify(p.feature), isDriving, sensitivity, now, p.feature.meanV, p.rows, SLIDING_RULE);
        OneBucketGrows(counter0, Classify(p.feature), isDriving, sensitivity, now, p.feature.meanV, p.rows, SLIDING_RULE);
        if Sub32(counter.timestamp, lastCounter.timestamp) >= DATA_LOG_INTERVAL {
          record := Some(Record(counter, lastCounter));
          var resetInstant := ResetInstant(now, secondsSinceMidnight, resetTime);
          if lastCounter.timestamp <= resetInstant && resetInstant <= now {
            counter := counter.(sleepTime := 0, sitTime := 0, walkTime := 0, jogTime := 0, steps := 0);
            counter := counter.(timestamp := now);
          }
          lastCounter := counter;
        }
        sent := SendStatusToWatchface();
      }
    }

    /** `workerMessageReceived`: tag 100 re-sends the status, tags 101-103
        change one setting. */
    method WorkerMessageReceived(msg: WorkerMessage) returns (sent: seq<WorkerMessage>)
      modifies this
      ensures Config() == Control(old(Config()), msg)
      ensures sent == if msg.tag == REFRESH_TAG then StatusMessages(counter, activityType) else []
      ensures counter == old(counter) && lastCounter == old(lastCounter) && activityType == old(activityType)
    {
      sent := [];
      if msg.tag == REFRESH_TAG {
        sent := SendStatusToWatchface();
      } else if msg.tag == SENSITIVITY_TAG {
        sensitivity := msg.data0;
      } else if msg.tag == RESET_TIME_TAG {
        resetTime := msg.data0;
      } else if msg.tag == DRIVING_TAG {
        isDriving := msg.data0 != 0;
      }
    }

    /** `init`: load status and settings, apply the start-up reset check,
        stamp the counter with now and take it as the last logged one. */
    method Init(s: Store, now: uint32, secondsSinceMidnight: nat)
      modifies this
      ensures Config() == LoadConfig(s)
      ensures counter == StartupCounter(LoadCounter(s, STATUS_LAYOUT, now), now, secondsSinceMidnight, LoadConfig(s).resetTime)
      ensures lastCounter == counter && activityType == old(activityType)
    {
      LoadStatus(s, now);
      LoadSettings(s);
      var resetInstant := ResetInstant(now, secondsSinceMidnight, resetTime);
      if counter.timestamp <= resetInstant && resetInstant <= now {
        counter := counter.(sleepTime := 0, sitTime := 0, walkTime := 0, jogTime := 0, steps := 0);
      }
      counter := counter.(timestamp := now);
      lastCounter := counter;
    }

    /** `deinit`: the status is saved. */
    method Deinit(s: Store) returns (saved: Store)
      ensures saved == SaveCounter(s, STATUS_LAYOUT, counter)
    {
      saved := SaveStatus(s);
    }
  }
}
