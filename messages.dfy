/** The `AppWorkerMessage` traffic between the background worker and the
    watchfaces: one 16-bit payload (`data0`) under a 16-bit type tag. The
    worker pushes its status on tags 0-5; the watchfaces send requests and
    settings on tags 100-103. */
module Messages {
  import opened Machine
  import opened Activity

  datatype WorkerMessage = WorkerMessage(tag: uint16, data0: uint16)

  const SLEEP_TAG: uint16 := 0
  const SIT_TAG: uint16 := 1
  const WALK_TAG: uint16 := 2
  const JOG_TAG: uint16 := 3
  const STEPS_TAG: uint16 := 4
  const TYPE_TAG: uint16 := 5
  /** Request for an immediate status push. */
  const REFRESH_TAG: uint16 := 100
  /** Settings as the worker of Aplite/worker_src/worker.c reads them. */
  const SENSITIVITY_TAG: uint16 := 101
  const RESET_TIME_TAG: uint16 := 102
  const DRIVING_TAG: uint16 := 103

  /** `sendStatusToWatchface`: the four buckets, the steps and the activity
      type, each cut to its low 16 bits. */
  function StatusMessages(c: Counter, activityType: nat): (ms: seq<WorkerMessage>)
  {
    [WorkerMessage(SLEEP_TAG, ToU16(c.sleepTime)), WorkerMessage(SIT_TAG, ToU16(c.sitTime)),
     WorkerMessage(WALK_TAG, ToU16(c.walkTime)), WorkerMessage(JOG_TAG, ToU16(c.jogTime)),
     WorkerMessage(STEPS_TAG, ToU16(c.steps)), WorkerMessage(TYPE_TAG, ToU16(activityType))]
  }

  /** What a watchface keeps of the worker's status: the latest value
      received for each field. */
  datatype Mailbox = Mailbox(counter: Counter, currentType: uint32)

  /** The watchfaces' `workerMessageReceived`: tags 0-4 overwrite one counter
      field, tag 5 the current type, any other tag nothing. */
  function Deliver(m: Mailbox, msg: WorkerMessage): Mailbox
  {
    match msg.tag
    case 0 => m.(counter := m.counter.(sleepTime := msg.data0))
    case 1 => m.(counter := m.counter.(sitTime := msg.data0))
    case 2 => m.(counter := m.counter.(walkTime := msg.data0))
    case 3 => m.(counter := m.counter.(jogTime := msg.data0))
    case 4 => m.(counter := m.counter.(steps := msg.data0))
    case 5 => m.(currentType := msg.data0)
    case _ => m
  }

  /** Messages delivered in order. */
  function DeliverAll(m: Mailbox, msgs: seq<WorkerMessage>): Mailbox
    decreases |msgs|
  {
    if |msgs| == 0 then m else DeliverAll(Deliver(m, msgs[0]), msgs[1..])
  }

  /** Each delivery changes at most the one field its tag names, and a tag
      outside 0-5 changes nothing. */
  lemma DeliverTouchesOneField(m: Mailbox, msg: WorkerMessage)
    ensures Deliver(m, msg).counter.timestamp == m.counter.timestamp
    ensures msg.tag != SLEEP_TAG ==> Deliver(m, msg).counter.sleepTime == m.counter.sleepTime
    ensures msg.tag != SIT_TAG ==> Deliver(m, msg).counter.sitTime == m.counter.sitTime
    ensures msg.tag != WALK_TAG ==> Deliver(m, msg).counter.walkTime == m.counter.walkTime
    ensures msg.tag != JOG_TAG ==> Deliver(m, msg).counter.jogTime == m.counter.jogTime
    ensures msg.tag != STEPS_TAG ==> Deliver(m, msg).counter.steps == m.counter.steps
    ensures msg.tag != TYPE_TAG ==> Deliver(m, msg).currentType == m.currentType
    ensures msg.tag > TYPE_TAG ==> Deliver(m, msg) == m
  {
  }

  /** One status push brings a watchface up to date: afterwards it holds the
      low 16 bits of every pushed field (the timestamp is not pushed). */
  lemma StatusPushSynchronises(m: Mailbox, c: Counter, activityType: nat)
    ensures DeliverAll(m, StatusMessages(c, activityType))
      == Mailbox(Counter(ToU16(c.sleepTime), ToU16(c.sitTime), ToU16(c.walkTime), ToU16(c.jogTime),
                         m.counter.timestamp, ToU16(c.steps)),
                 ToU16(activityType))
  {
    var ms := StatusMessages(c, activityType);
    var m1 := Deliver(m, ms[0]);
    var m2 := Deliver(m1, ms[1]);
    var m3 := Deliver(m2, ms[2]);
    var m4 := Deliver(m3, ms[3]);
    var m5 := Deliver(m4, ms[4]);
    var m6 := Deliver(m5, ms[5]);
    assert DeliverAll(m5, ms[5..]) == DeliverAll(m6, []) by {
      assert ms[5..][1..] == [];
    }
    assert DeliverAll(m4, ms[4..]) == DeliverAll(m5, ms[5..]) by {
      assert ms[4..][1..] == ms[5..];
    }
    assert DeliverAll(m3, ms[3..]) == DeliverAll(m4, ms[4..]) by {
      assert ms[3..][1..] == ms[4..];
    }
    assert DeliverAll(m2, ms[2..]) == DeliverAll(m3, ms[3..]) by {
      assert ms[2..][1..] == ms[3..];
    }
    assert DeliverAll(m1, ms[1..]) == DeliverAll(m2, ms[2..]) by {
      assert ms[1..][1..] == ms[2..];
    }
  }

  /** Values that fit in 16 bits arrive unchanged. */
  lemma SmallStatusArrivesExactly(m: Mailbox, c: Counter, activityType: nat)
    requires c.sleepTime < U16_MODULUS && c.sitTime < U16_MODULUS && c.walkTime < U16_MODULUS
    requires c.jogTime < U16_MODULUS && c.steps < U16_MODULUS && activityType < U16_MODULUS
    ensures DeliverAll(m, StatusMessages(c, activityType))
      == Mailbox(c.(timestamp := m.counter.timestamp), activityType)
  {
    StatusPushSynchronises(m, c, activityType);
  }
}
