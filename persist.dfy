/** The Pebble persistent key-value store as the apps use it: `int32_t`
    values under integer keys, read with a default when the key is absent,
    and the two key layouts under which the `Counter` is kept. */
module Persist {
  import opened Machine
  import opened Activity

  /** The store: an absent key is one for which `persist_exists` is false. */
  type Store = map<int, int32>

  /** `persist_exists(k) ? persist_read_int(k) : d`. */
  function ReadInt(s: Store, key: int, default: int32): int32
  {
    if key in s then s[key] else default
  }

  /** The same read assigned to a `uint32_t` field. */
  function ReadUint(s: Store, key: int, default: uint32): uint32
  {
    if key in s then U32OfI32(s[key]) else default
  }

  /** `persist_exists(k) ? persist_read_bool(k) : d`; a flag is kept as 0 or 1. */
  function ReadBool(s: Store, key: int, default: bool): bool
  {
    if key in s then s[key] != 0 else default
  }

  /** `persist_write_int(k, v)` of an `int32_t`. */
  function WriteInt(s: Store, key: int, v: int32): Store
  {
    s[key := v]
  }

  /** `persist_write_int(k, v)` of a `uint32_t`: converted to `int32_t`. */
  function WriteUint(s: Store, key: int, v: uint32): Store
  {
    s[key := I32OfU32(v)]
  }

  /** `persist_write_bool(k, b)`. */
  function WriteBool(s: Store, key: int, b: bool): Store
  {
    s[key := if b then 1 else 0]
  }

  /** What was written under a key is read back, whatever the default;
      other keys keep their values. */
  lemma WriteThenRead(s: Store, key: int, other: int, i: int32, u: uint32, b: bool, di: int32, du: uint32, db: bool)
    ensures ReadInt(WriteInt(s, key, i), key, di) == i
    ensures ReadUint(WriteUint(s, key, u), key, du) == u
    ensures ReadBool(WriteBool(s, key, b), key, db) == b
    ensures other != key ==> ReadUint(WriteUint(s, key, u), other, du) == ReadUint(s, other, du)
  {
    U32RoundTrip(u);
  }

  /** The keys under which the six `Counter` fields are stored. */
  datatype CounterLayout = CounterLayout(sleepKey: int, sitKey: int, walkKey: int, jogKey: int,
                                         stepsKey: int, timestampKey: int)

  predicate Distinct(l: CounterLayout)
  {
    var keys := [l.sleepKey, l.sitKey, l.walkKey, l.jogKey, l.stepsKey, l.timestampKey];
    forall i, j :: 0 <= i < j < |keys| ==> keys[i] != keys[j]
  }

  /** Layout of the worker and the Aplite watchface: steps at key 4,
      timestamp at key 5. */
  const STATUS_LAYOUT := CounterLayout(0, 1, 2, 3, 4, 5)
  /** Layout of the app in src/main.c: timestamp at key 4, steps at key 5. */
  const DEMO_LAYOUT := CounterLayout(0, 1, 2, 3, 5, 4)

  /** Loading a counter: every absent field is 0, except the timestamp,
      which is `now`. */
  function LoadCounter(s: Store, l: CounterLayout, now: uint32): Counter
  {
    Counter(ReadUint(s, l.sleepKey, 0), ReadUint(s, l.sitKey, 0), ReadUint(s, l.walkKey, 0),
            ReadUint(s, l.jogKey, 0), ReadUint(s, l.timestampKey, now), ReadUint(s, l.stepsKey, 0))
  }

  /** Saving a counter: one `persist_write_int` per field. */
  function SaveCounter(s: Store, l: CounterLayout, c: Counter): Store
  {
    var s1 := WriteUint(s, l.sleepKey, c.sleepTime);
    var s2 := WriteUint(s1, l.sitKey, c.sitTime);
    var s3 := WriteUint(s2, l.walkKey, c.walkTime);
    var s4 := WriteUint(s3, l.jogKey, c.jogTime);
    var s5 := WriteUint(s4, l.stepsKey, c.steps);
    WriteUint(s5, l.timestampKey, c.timestamp)
  }

  /** Saving and loading with the same layout gives the counter back. */
  lemma CounterRoundTrip(s: Store, l: CounterLayout, c: Counter, now: uint32)
    requires Distinct(l)
    ensures LoadCounter(SaveCounter(s, l, c), l, now) == c
  {
    var keys := [l.sleepKey, l.sitKey, l.walkKey, l.jogKey, l.stepsKey, l.timestampKey];
    assert keys[0] == l.sleepKey && keys[1] == l.sitKey && keys[2] == l.walkKey;
    assert keys[3] == l.jogKey && keys[4] == l.stepsKey && keys[5] == l.timestampKey;
    U32RoundTrip(c.sleepTime);
    U32RoundTrip(c.sitTime);
    U32RoundTrip(c.walkTime);
    U32RoundTrip(c.jogTime);
    U32RoundTrip(c.steps);
    U32RoundTrip(c.timestamp);
  }

  /** On an empty store every field loads as 0 and the timestamp as `now`. */
  lemma CounterDefaults(l: CounterLayout, now: uint32)
    ensures LoadCounter(map[], l, now) == Counter(0, 0, 0, 0, now, 0)
  {
  }

  /** Both layouts are valid, but they disagree: a counter saved by the
      worker and loaded by the app of src/main.c has its steps and its
      timestamp exchanged. */
  lemma LayoutsExchangeStepsAndTimestamp(s: Store, c: Counter, now: uint32)
    ensures Distinct(STATUS_LAYOUT) && Distinct(DEMO_LAYOUT)
    ensures LoadCounter(SaveCounter(s, STATUS_LAYOUT, c), DEMO_LAYOUT, now)
      == c.(steps := c.timestamp, timestamp := c.steps)
  {
    U32RoundTrip(c.steps);
    U32RoundTrip(c.timestamp);
    U32RoundTrip(c.sleepTime);
    U32RoundTrip(c.sitTime);
    U32RoundTrip(c.walkTime);
    U32RoundTrip(c.jogTime);
  }
}
