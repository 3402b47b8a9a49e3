/** The Basalt watchface (Basalt/src/main.c), apart from drawing: its four
    settings and their persistence, the settings message from the phone,
    the settings it forwards to the worker, the mailbox of the worker's
    status, and the percentage clamp of its progress rings. */
module BasaltFace {
  import opened Machine
  import opened Activity
  import opened Persist
  import opened Messages
  import Worker

  /** Keys of the phone's settings message. */
  const RESET_TIME_KEY: int := 0
  const PEDOMETER_SENSITIVITY_KEY: int := 1
  const STEP_GOAL_KEY: int := 2
  const ACTIVE_TIME_GOAL_KEY: int := 3

  /** The watchface's settings; the reset time is in minutes after midnight
      and the active-time goal in minutes. */
  datatype BasaltConfig = BasaltConfig(resetTime: int32, sensitivity: int32, stepGoal: int32, activeTimeGoal: int32)

  const DEFAULT_CONFIG := BasaltConfig(0, 15, 10000, 60)

  /** `loadConfig`: keys 6 to 9, with the defaults of the static variables. */
  function ReadConfig(s: Store): BasaltConfig
  {
    BasaltConfig(ReadInt(s, 6, 0), ReadInt(s, 7, 15), ReadInt(s, 8, 10000), ReadInt(s, 9, 60))
  }

  /** `saveConfig`. */
  function WriteConfig(s: Store, cfg: BasaltConfig): Store
  {
    WriteInt(WriteInt(WriteInt(WriteInt(s, 6, cfg.resetTime), 7, cfg.sensitivity), 8, cfg.stepGoal),
             9, cfg.activeTimeGoal)
  }

  /** Saved settings load back unchanged. */
  lemma ConfigRoundTrip(s: Store, cfg: BasaltConfig)
    ensures ReadConfig(WriteConfig(s, cfg)) == cfg
  {
  }

  /** Absent settings take their defaults. */
  lemma ConfigDefaults()
    ensures ReadConfig(map[]) == DEFAULT_CONFIG
  {
  }

  /** `sendConfigToWorker`: the reset time on tag 101, the sensitivity on
      tag 102, each cut to 16 bits. */
  function ConfigMessages(cfg: BasaltConfig): seq<WorkerMessage>
  {
    [WorkerMessage(101, ToU16(cfg.resetTime)), WorkerMessage(102, ToU16(cfg.sensitivity))]
  }

  /** Read by the worker of Aplite/worker_src/worker.c, which takes tag 101
      as the sensitivity and tag 102 as the reset minute, the two settings
      arrive exchanged. */
  lemma ForwardedSettingsExchanged(w: Worker.WorkerConfig, cfg: BasaltConfig)
    ensures Worker.ControlAll(w, ConfigMessages(cfg))
      == w.(sensitivity := ToU16(cfg.resetTime), resetTime := ToU16(cfg.sensitivity))
  {
    var ms := ConfigMessages(cfg);
    var w1 := Worker.Control(w, ms[0]);
    var w2 := Worker.Control(w1, ms[1]);
    assert Worker.ControlAll(w1, ms[1..]) == Worker.ControlAll(w2, []) by {
      assert ms[1..][1..] == [];
    }
  }

  /** The keys differ too: that worker reads its reset minute from key 7,
      where this watchface saves the sensitivity, and its sensitivity from
      key 11, which this watchface never writes. */
  lemma StoredSettingsMisread(s: Store, cfg: BasaltConfig)
    ensures Worker.LoadConfig(WriteConfig(s, cfg)).resetTime == cfg.sensitivity
    ensures Worker.LoadConfig(WriteConfig(s, cfg)).sensitivity == Worker.LoadConfig(s).sensitivity
  {
  }

  /** The clamp at the head of `drawProgress`, done in two reassignments as
      there: a percentage above 100 becomes 100, then one below 0 becomes 0. */
  method ClampPercent(percent: real) returns (p: real)
    ensures 0.0 <= p <= 100.0
    ensures 0.0 <= percent <= 100.0 ==> p == percent
    ensures percent > 100.0 ==> p == 100.0
    ensures percent < 0.0 ==> p == 0.0
  {
    p := percent;
    p := if p > 100.0 then 100.0 else p;
    p := if p < 0.0 then 0.0 else p;
  }

  /** The length of a progress ring drawn on a `width` by `height` rectangle:
      the clamped share of its perimeter, never more than the perimeter. */
  method ProgressLength(percent: real, width: int16, height: int16) returns (length: real)
    requires width as int + height as int >= 0
    ensures 0.0 <= length <= (width as real + height as real) * 2.0
    ensures 0.0 <= percent <= 100.0 ==> length == percent / 100.0 * (width as real + height as real) * 2.0
    ensures percent >= 100.0 ==> length == (width as real + height as real) * 2.0
  {
    var p := ClampPercent(percent);
    var perimeter := (width as real + height as real) * 2.0;
    length := p / 100.0 * perimeter;
    assert 0.0 <= p / 100.0 <= 1.0;
    assert 0.0 <= perimeter;
    assert length <= perimeter by {
      assert perimeter - length == (1.0 - p / 100.0) * perimeter;
    }
  }

  class Face {
    var resetTime: int32
    var sensitivity: int32
    var stepGoal: int32
    var activeTimeGoal: int32
    var counter: Counter
    var currentType: uint32

    function Config(): BasaltConfig
      reads this
    {
      BasaltConfig(resetTime, sensitivity, stepGoal, activeTimeGoal)
    }

    /** The worker's status as last received. */
    function Status(): Mailbox
      reads this
    {
      Mailbox(counter, currentType)
    }

    /** The static initial values. */
    constructor()
      ensures Config() == DEFAULT_CONFIG && currentType == 0
    {
      resetTime, sensitivity, stepGoal, activeTimeGoal := 0, 15, 10000, 60;
      counter := Counter(0, 0, 0, 0, 0, 0);
      currentType := 0;
    }

    /** `loadConfig`. */
    method LoadSettings(s: Store)
      modifies this
      ensures Config() == ReadConfig(s) && Status() == old(Status())
    {
      resetTime := ReadInt(s, 6, 0);
      sensitivity := ReadInt(s, 7, 15);
      stepGoal := ReadInt(s, 8, 10000);
      activeTimeGoal := ReadInt(s, 9, 60);
    }

    /** `saveConfig`. */
    method SaveSettings(s: Store) returns (saved: Store)
      ensures saved == WriteConfig(s, Config())
      ensures ReadConfig(saved) == Config()
    {
      saved := WriteInt(s, 6, resetTime);
      saved := WriteInt(saved, 7, sensitivity);
      saved := WriteInt(saved, 8, stepGoal);
      saved := WriteInt(saved, 9, activeTimeGoal);
      ConfigRoundTrip(s, Config());
    }

    /** `sendConfigToWorker`. */
    method SendConfigToWorker() returns (sent: seq<WorkerMessage>)
      ensures sent == ConfigMessages(Config())
    {
      sent := [WorkerMessage(101, ToU16(resetTime))];
      sent := sent + [WorkerMessage(102, ToU16(sensitivity))];
    }

    /** `messageReceived`: every message carries all four settings, which
        overwrite the current ones and are forwarded to the worker. */
    method MessageReceived(dict: map<int, int32>) returns (sent: seq<WorkerMessage>)
      requires RESET_TIME_KEY in dict && PEDOMETER_SENSITIVITY_KEY in dict
      requires STEP_GOAL_KEY in dict && ACTIVE_TIME_GOAL_KEY in dict
      modifies this
      ensures Config() == BasaltConfig(dict[RESET_TIME_KEY], dict[PEDOMETER_SENSITIVITY_KEY],
                                       dict[STEP_GOAL_KEY], dict[ACTIVE_TIME_GOAL_KEY])
      ensures Status() == old(Status())
      ensures sent == ConfigMessages(Config())
    {
      resetTime := dict[RESET_TIME_KEY];
      sensitivity := dict[PEDOMETER_SENSITIVITY_KEY];
      stepGoal := dict[STEP_GOAL_KEY];
      activeTimeGoal := dict[ACTIVE_TIME_GOAL_KEY];
      sent := SendConfigToWorker();
    }

    /** `workerMessageReceived`. */
    method WorkerMessageReceived(msg: WorkerMessage)
      modifies this
      ensures Status() == Deliver(old(Status()), msg)
      ensures Config() == old(Config())
    {
      match msg.tag {
        case 0 => counter := counter.(sleepTime := msg.data0);
        case 1 => counter := counter.(sitTime := msg.data0);
        case 2 => counter := counter.(walkTime := msg.data0);
        case 3 => counter := counter.(jogTime := msg.data0);
        case 4 => counter := counter.(steps := msg.data0);
        case 5 => currentType := msg.data0;
        case _ =>
      }
    }

    /** `init`: the settings are loaded and forwarded, and the worker is
        asked for a fresh status. */
    method Init(s: Store) returns (sent: seq<WorkerMessage>)
      modifies this
      ensures Config() == ReadConfig(s) && Status() == old(Status())
      ensures sent == ConfigMessages(ReadConfig(s)) + [WorkerMessage(REFRESH_TAG, 0)]
    {
      LoadSettings(s);
      sent := SendConfigToWorker();
      sent := sent + [WorkerMessage(REFRESH_TAG, 0)];
    }

    /** `deinit`: the settings are saved. */
    method Deinit(s: Store) returns (saved: Store)
      ensures saved == WriteConfig(s, Config())
    {
      saved := SaveSettings(s);
    }
  }
}
