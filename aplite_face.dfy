/** The Aplite watchface (Aplite/src/main.c), apart from drawing: its
    settings and their persistence, the phone messages (settings, and the
    speed answer that decides whether the wearer is driving), the
    five-minute speed check, the mailbox of the worker's status, and the
    hours and minutes it shows for a bucket. */
module ApliteFace {
  import opened Machine
  import opened Activity
  import opened Persist
  import opened Messages
  import Worker

  /** Keys of the phone's messages. */
  const COLOR_THEME_KEY: int := 0
  const RESET_TIME_KEY: int := 1
  const SPEED_THRESHOLD_KEY: int := 2
  const SPEED_KEY: int := 4
  const BATTERY_THRESHOLD_KEY: int := 5
  const PEDOMETER_SENSITIVITY_KEY: int := 6
  /** `dict_size` of the settings message; any other size is a speed answer. */
  const CONFIG_MESSAGE_SIZE: nat := 56

  /** The watchface's settings. */
  datatype FaceConfig = FaceConfig(colorTheme: bool, resetTime: int32, speedThreshold: int32,
                                   isDriving: bool, batteryThreshold: int32, sensitivity: int32)

  const DEFAULT_CONFIG := FaceConfig(true, 0, 0, false, 0, 20)

  /** `loadConfig`: keys 6 to 11, with the defaults of the static variables. */
  function ReadConfig(s: Store): FaceConfig
  {
    FaceConfig(ReadBool(s, 6, true), ReadInt(s, 7, 0), ReadInt(s, 8, 0),
               ReadBool(s, 9, false), ReadInt(s, 10, 0), ReadInt(s, 11, 20))
  }

  /** `saveConfig`. */
  function WriteConfig(s: Store, cfg: FaceConfig): Store
  {
    var s6 := WriteBool(s, 6, cfg.colorTheme);
    var s7 := WriteInt(s6, 7, cfg.resetTime);
    var s8 := WriteInt(s7, 8, cfg.speedThreshold);
    var s9 := WriteBool(s8, 9, cfg.isDriving);
    var s10 := WriteInt(s9, 10, cfg.batteryThreshold);
    WriteInt(s10, 11, cfg.sensitivity)
  }

  /** Saved settings load back unchanged. */
  lemma ConfigRoundTrip(s: Store, cfg: FaceConfig)
    ensures ReadConfig(WriteConfig(s, cfg)) == cfg
  {
  }

  /** Absent settings take their defaults. */
  lemma ConfigDefaults()
    ensures ReadConfig(map[]) == DEFAULT_CONFIG
  {
  }

  /** The worker reads its settings from the keys the watchface saves them
      under: reset minute 7, driving 9, sensitivity 11. */
  lemma WorkerLoadsSavedSettings(s: Store, cfg: FaceConfig)
    ensures Worker.LoadConfig(WriteConfig(s, cfg)) == Worker.WorkerConfig(cfg.resetTime, cfg.isDriving, cfg.sensitivity)
  {
  }

  /** The messages a settings message makes the watchface send the worker:
      sensitivity on 101, reset minute on 102, each cut to 16 bits. */
  function SettingsMessages(cfg: FaceConfig): seq<WorkerMessage>
  {
    [WorkerMessage(SENSITIVITY_TAG, ToU16(cfg.sensitivity)), WorkerMessage(RESET_TIME_TAG, ToU16(cfg.resetTime))]
  }

  /** The message carrying the driving flag. */
  function DrivingMessage(isDriving: bool): seq<WorkerMessage>
  {
    [WorkerMessage(DRIVING_TAG, if isDriving then 1 else 0)]
  }

  /** The worker takes each forwarded setting into the matching variable, and
      a sensitivity and reset minute in 0-65535 arrive unchanged. */
  lemma SettingsReachWorker(w: Worker.WorkerConfig, cfg: FaceConfig, isDriving: bool)
    ensures Worker.ControlAll(w, SettingsMessages(cfg))
      == w.(sensitivity := ToU16(cfg.sensitivity), resetTime := ToU16(cfg.resetTime))
    ensures 0 <= cfg.sensitivity < U16_MODULUS && 0 <= cfg.resetTime < U16_MODULUS ==>
      Worker.ControlAll(w, SettingsMessages(cfg)) == w.(sensitivity := cfg.sensitivity, resetTime := cfg.resetTime)
    ensures Worker.ControlAll(w, DrivingMessage(isDriving)) == w.(isDriving := isDriving)
  {
    var ms := SettingsMessages(cfg);
    var w1 := Worker.Control(w, ms[0]);
    var w2 := Worker.Control(w1, ms[1]);
    assert Worker.ControlAll(w1, ms[1..]) == Worker.ControlAll(w2, []) by {
      assert ms[1..][1..] == [];
    }
    var d := DrivingMessage(isDriving);
    assert d[1..] == [];
  }

  /** Hours of a duration as displayed: `t / 3600 % 24`. */
  function Hours(t: uint32): nat { t / 3600 % 24 }

  /** Minutes of a duration as displayed: `t / 60 % 60`. */
  function Minutes(t: uint32): nat { t / 60 % 60 }

  /** The displayed HH:MM are two-digit values, and below a day they give
      back the duration to the minute. */
  lemma ClockDigits(t: uint32)
    ensures Hours(t) < 24 && Minutes(t) < 60
    ensures t < 86400 ==> Hours(t) * 3600 + Minutes(t) * 60 + t % 60 == t
  {
    if t < 86400 {
      var h, m := t / 3600, t / 60;
      assert t == 3600 * h + t % 3600;
      assert t == 60 * m + t % 60;
      assert m == 60 * h + m % 60 by {
        DivModUnique(t / 60, 60, h, (t % 3600) / 60);
      }
      assert h < 24;
    }
  }

  class Face {
    var colorTheme: bool
    var isDriving: bool
    var resetTime: int32
    var speedThreshold: int32
    var batteryThreshold: int32
    var sensitivity: int32
    var counter: Counter
    var currentType: uint32

    /** The settings as one value. */
    function Config(): FaceConfig
      reads this
    {
      FaceConfig(colorTheme, resetTime, speedThreshold, isDriving, batteryThreshold, sensitivity)
    }

    /** The worker's status as last received. */
    function Status(): Mailbox
      reads this
    {
      Mailbox(counter, currentType)
    }

    /** The static initial values. */
    constructor()
      ensures Config() == DEFAULT_CONFIG && currentType == 0
    {
      colorTheme, isDriving := true, false;
      resetTime, speedThreshold, batteryThreshold, sensitivity := 0, 0, 0, 20;
      counter := Counter(0, 0, 0, 0, 0, 0);
      currentType := 0;
    }

    /** `loadStatus`: the worker's counter layout, timestamp defaulting to now. */
    method LoadStatus(s: Store, now: uint32)
      modifies this
      ensures counter == LoadCounter(s, STATUS_LAYOUT, now)
      ensures Config() == old(Config()) && currentType == old(currentType)
    {
      counter := Counter(ReadUint(s, 0, 0), ReadUint(s, 1, 0), ReadUint(s, 2, 0), ReadUint(s, 3, 0),
                         ReadUint(s, 5, now), ReadUint(s, 4, 0));
    }

    /** `loadConfig`. */
    method LoadSettings(s: Store)
      modifies this
      ensures Config() == ReadConfig(s)
      ensures Status() == old(Status())
    {
      colorTheme := ReadBool(s, 6, true);
      resetTime := ReadInt(s, 7, 0);
      speedThreshold := ReadInt(s, 8, 0);
      isDriving := ReadBool(s, 9, false);
      batteryThreshold := ReadInt(s, 10, 0);
      sensitivity := ReadInt(s, 11, 20);
    }

    /** `saveConfig`. */
    method SaveSettings(s: Store) returns (saved: Store)
      ensures saved == WriteConfig(s, Config())
      ensures ReadConfig(saved) == Config()
    {
      saved := WriteBool(s, 6, colorTheme);
      saved := WriteInt(saved, 7, resetTime);
      saved := WriteInt(saved, 8, speedThreshold);
      saved := WriteBool(saved, 9, isDriving);
      saved := WriteInt(saved, 10, batteryThreshold);
      saved := WriteInt(saved, 11, sensitivity);
      ConfigRoundTrip(s, Config());
    }

    /** The speed check of `updateClock`: at minutes divisible by 5, when a
        threshold is set, driving is cleared and the phone asked for the
        speed. */
    method UpdateClock(minute: nat) returns (speedRequested: bool)
      modifies this
      ensures speedRequested <==> minute % 5 == 0 && speedThreshold != 0
      ensures isDriving == (old(isDriving) && !speedRequested)
      ensures Config() == old(Config()).(isDriving := isDriving) && Status() == old(Status())
    {
      speedRequested := false;
      if minute % 5 == 0 && speedThreshold != 0 {
        isDriving := false;
        speedRequested := true;
      }
    }

    /** `messageReceived`: a message of CONFIG_MESSAGE_SIZE bytes carries the
        settings, which are taken, re-checked against the clock at `minute`
        and forwarded to the worker; any other message carries the speed,
        which on monochrome models decides the driving flag, forwarded in
        every case. */
    method MessageReceived(dict: map<int, int32>, dictSize: nat, minute: nat, monochrome: bool)
      returns (sent: seq<WorkerMessage>, speedRequested: bool)
      requires dictSize == CONFIG_MESSAGE_SIZE ==>
        COLOR_THEME_KEY in dict && RESET_TIME_KEY in dict && SPEED_THRESHOLD_KEY in dict
        && BATTERY_THRESHOLD_KEY in dict && PEDOMETER_SENSITIVITY_KEY in dict
      requires dictSize != CONFIG_MESSAGE_SIZE ==> SPEED_KEY in dict
      modifies this
      ensures Status() == old(Status())
      ensures dictSize == CONFIG_MESSAGE_SIZE ==>
        && colorTheme == (dict[COLOR_THEME_KEY] != 0)
        && resetTime == dict[RESET_TIME_KEY]
        && speedThreshold == dict[SPEED_THRESHOLD_KEY]
        && batteryThreshold == dict[BATTERY_THRESHOLD_KEY]
        && sensitivity == dict[PEDOMETER_SENSITIVITY_KEY]
        && (speedRequested <==> minute % 5 == 0 && speedThreshold != 0)
        && isDriving == (old(isDriving) && !speedRequested)
        && sent == SettingsMessages(Config())
      ensures dictSize != CONFIG_MESSAGE_SIZE ==>
        && Config() == old(Config()).(isDriving := isDriving)
        && isDriving == (if monochrome then dict[SPEED_KEY] >= speedThreshold else old(isDriving))
        && !speedRequested
        && sent == DrivingMessage(isDriving)
    {
      if dictSize == CONFIG_MESSAGE_SIZE {
        colorTheme := dict[COLOR_THEME_KEY] != 0;
        resetTime := dict[RESET_TIME_KEY];
        speedThreshold := dict[SPEED_THRESHOLD_KEY];
        batteryThreshold := dict[BATTERY_THRESHOLD_KEY];
        sensitivity := dict[PEDOMETER_SENSITIVITY_KEY];
        speedRequested := UpdateClock(minute);
        sent := [WorkerMessage(SENSITIVITY_TAG, ToU16(sensitivity))];
        sent := sent + [WorkerMessage(RESET_TIME_TAG, ToU16(resetTime))];
      } else {
        var speed := dict[SPEED_KEY];
        if monochrome {
          if speed >= speedThreshold {
            isDriving := true;
          } else {
            isDriving := false;
          }
        }
        speedRequested := false;
        sent := [WorkerMessage(DRIVING_TAG, if isDriving then 1 else 0)];
      }
    }

    /** `workerMessageReceived`. */
    method WorkerMessageReceived(msg: WorkerMessage)
      modifies this
      ensures Status() == Deliver(old(Status()), msg)
      ensures Config() == old(Config())
    {
      match msg.tag {
        case 0 => counter := counter.(sleepTime := msg.data0);
        case 1 => counter := counter.(sitTime := msg.data0);
        case 2 => counter := counter.(walkTime := msg.data0);
        case 3 => counter := counter.(jogTime := msg.data0);
        case 4 => counter := counter.(steps := msg.data0);
        case 5 => currentType := msg.data0;
        case _ =>
      }
    }

    /** `init`: status and settings are loaded; pushing the window runs
        `windowLoad`, whose immediate `updateClock` at the current `minute`
        may clear the loaded driving flag and ask the phone for the speed;
        then the worker is asked for a fresh status. */
    method Init(s: Store, now: uint32, minute: nat) returns (sent: seq<WorkerMessage>, speedRequested: bool)
      modifies this
      ensures counter == LoadCounter(s, STATUS_LAYOUT, now) && currentType == old(currentType)
      ensures speedRequested <==> minute % 5 == 0 && ReadConfig(s).speedThreshold != 0
      ensures isDriving == (ReadConfig(s).isDriving && !speedRequested)
      ensures Config() == ReadConfig(s).(isDriving := isDriving)
      ensures sent == [WorkerMessage(REFRESH_TAG, 0)]
    {
      LoadStatus(s, now);
      LoadSettings(s);
      speedRequested := UpdateClock(minute);
      sent := [WorkerMessage(REFRESH_TAG, 0)];
    }

    /** `deinit`: the settings are saved. */
    method Deinit(s: Store) returns (saved: Store)
      ensures saved == WriteConfig(s, Config())
    {
      saved := SaveSettings(s);
    }
  }
}
