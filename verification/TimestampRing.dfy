/**
 The 32 slots in which a session remembers the flags and the timecode of its inputs, to give them to the
 outputs of the same timestamp.
 */
module TimestampRing {

  const SLOTS: nat := 32

  const TIMECODE: bv32 := 0x0000_0100
  const SOURCE_MASK: bv32 := 0x0007_0000
  const MASK: bv32 := TIMECODE | SOURCE_MASK

  type Timecode = nat

  /** What is remembered of one input. */
  datatype Record = Record(timestamp: nat, flags: bv32, timecode: Timecode)

  datatype Option<T> = None | Some(value: T)

  function Remembered(timestamp: nat, flags: bv32, timecode: Timecode): Record {
    Record(timestamp, flags & MASK, timecode)
  }

  /** The newest records, at most as many as there are slots. */
  function Newest(history: seq<Record>): seq<Record> {
    if |history| <= SLOTS then history else history[|history| - SLOTS..]
  }

  predicate Distinct(records: seq<Record>) {
    forall i, j | 0 <= i < j < |records| :: records[i].timestamp != records[j].timestamp
  }

  const BLANK := Record(0, 0, 0)

  datatype Ring = Ring(slots: seq<Record>, index: nat) {
    ghost predicate Shaped() {
      |slots| == SLOTS && index <= SLOTS
    }
  }

  function Empty(): (r: Ring)
    ensures r.Shaped() && r.index == 0
    ensures forall k | 0 <= k < SLOTS :: r.slots[k] == BLANK
  {
    Ring(seq(SLOTS, k => BLANK), 0)
  }

  function Put(r: Ring, record: Record): (next: Ring)
    requires r.Shaped()
    ensures next.Shaped()
  {
    var at := if r.index >= SLOTS then 0 else r.index;
    Ring(r.slots[at := record], at + 1)
  }

  function PutAll(history: seq<Record>): (r: Ring)
    ensures r.Shaped()
  {
    if history == [] then Empty() else Put(PutAll(history[..|history| - 1]), history[|history| - 1])
  }

  /** The first slot with this timestamp, or all slots. */
  function FirstMatch(slots: seq<Record>, timestamp: nat, from: nat): (k: nat)
    requires from <= |slots|
    ensures from <= k <= |slots|
    ensures forall i | from <= i < k :: slots[i].timestamp != timestamp
    ensures k < |slots| ==> slots[k].timestamp == timestamp
    decreases |slots| - from
  {
    if from == |slots| || slots[from].timestamp == timestamp then from else FirstMatch(slots, timestamp, from + 1)
  }

  /** A timestamp that is not found gets what stands in the next slot; behind the last one there is nothing to get. */
  function Get(r: Ring, timestamp: nat): Option<Record>
    requires r.Shaped()
  {
    var k := FirstMatch(r.slots, timestamp, 0);
    if k < SLOTS then Some(r.slots[k]) else if r.index < SLOTS then Some(r.slots[r.index]) else None
  }

  // Where the ring keeps what.

  /** The slot of the `age`-th newest record. */
  function SlotOf(index: nat, age: nat): nat
    requires index <= SLOTS && age < SLOTS && (index > 0 || age > 0)
  {
    if age < index then index - 1 - age else index + SLOTS - 1 - age
  }

  ghost predicate Keeps(r: Ring, history: seq<Record>) {
    && r.Shaped()
    && (|history| <= SLOTS ==> r.index == |history|)
    && (history != [] ==> r.index > 0)
    && (forall age: nat | age < SLOTS && age < |history| :: r.slots[SlotOf(r.index, age)] == history[|history| - 1 - age])
    && (forall k | |history| <= k < SLOTS :: r.slots[k] == BLANK)
  }

  lemma PutKeeps(r: Ring, history: seq<Record>, record: Record)
    requires Keeps(r, history)
    ensures Keeps(Put(r, record), history + [record])
  {
    var next, longer := Put(r, record), history + [record];
    forall age: nat | age < SLOTS && age < |longer|
      ensures next.slots[SlotOf(next.index, age)] == longer[|longer| - 1 - age]
    {
      if age > 0 {
        assert SlotOf(next.index, age) == SlotOf(r.index, age - 1);
        assert longer[|longer| - 1 - age] == history[|history| - 1 - (age - 1)];
      }
    }
  }

  lemma {:induction false} PutAllKeeps(history: seq<Record>)
    ensures Keeps(PutAll(history), history)
  {
    if history != [] {
      var n := |history| - 1;
      PutAllKeeps(history[..n]);
      PutKeeps(PutAll(history[..n]), history[..n], history[n]);
      assert history[..n] + [history[n]] == history;
    }
  }

  /** The age of the record in slot `k`. */
  function AgeIn(index: nat, k: nat): (age: nat)
    requires index <= SLOTS && k < SLOTS && index > 0
    ensures age < SLOTS && SlotOf(index, age) == k
  {
    if k < index then index - 1 - k else index + SLOTS - 1 - k
  }

  lemma AgesAreUnique(history: seq<Record>, a: nat, b: nat)
    requires Distinct(Newest(history)) && a < |Newest(history)| && b < |Newest(history)|
    requires history[|history| - 1 - a].timestamp == history[|history| - 1 - b].timestamp
    ensures a == b
  {
    var newest := Newest(history);
    assert newest[|newest| - 1 - a] == history[|history| - 1 - a];
    assert newest[|newest| - 1 - b] == history[|history| - 1 - b];
  }

  /**
   As long as the newest 32 timestamps differ, looking any of them up gives exactly what was remembered with
   it, wherever the ring has wrapped.
   */
  lemma LookupFindsNewest(history: seq<Record>, age: nat)
    requires Distinct(Newest(history)) && age < |Newest(history)|
    ensures var record := history[|history| - 1 - age];
            Get(PutAll(history), record.timestamp) == Some(record)
  {
    PutAllKeeps(history);
    var r, n := PutAll(history), |history|;
    var record := history[n - 1 - age];
    var home := SlotOf(r.index, age);
    assert r.slots[home] == record;
    var k := FirstMatch(r.slots, record.timestamp, 0);
    assert k <= home;
    var found := AgeIn(r.index, k);
    assert found < n && r.slots[k] == history[n - 1 - found];
    AgesAreUnique(history, found, age);
  }

  /** An unknown timestamp gets the oldest record there is, or a blank one while there is room. */
  lemma LookupMisses(history: seq<Record>, timestamp: nat)
    requires forall k | 0 <= k < SLOTS :: PutAll(history).slots[k].timestamp != timestamp
    ensures var r := PutAll(history);
            Get(r, timestamp) == if |history| < SLOTS then Some(BLANK)
                                 else if r.index == SLOTS then None
                                 else Some(history[|history| - SLOTS])
  {
    PutAllKeeps(history);
    var r := PutAll(history);
    if |history| >= SLOTS && r.index < SLOTS {
      assert SlotOf(r.index, SLOTS - 1) == r.index;
    }
  }

  /** There is nothing to get, and the code reads behind its table, exactly after each full round of inputs. */
  lemma {:induction false} IndexAfter(history: seq<Record>)
    ensures PutAll(history).index == if history == [] then 0 else (|history| - 1) % SLOTS + 1
    ensures PutAll(history).index == SLOTS <==> |history| > 0 && |history| % SLOTS == 0
  {
    if history != [] {
      IndexAfter(history[..|history| - 1]);
    }
  }

  /** The flags an output keeps, and those it takes from its input. */
  function Merged(output: bv32, input: bv32): bv32 {
    (output & !MASK) | input
  }

  /** A record on top of the flags an output already has. */
  function Tagged(found: Option<Record>, flags: bv32): Option<Record> {
    match found
    case None => None
    case Some(record) => Some(record.(flags := Merged(flags, record.flags)))
  }

  /** An output keeps its own flags outside the mask and takes the input's inside it. */
  lemma TaggedMergesFlags(timestamp: nat, input: bv32, timecode: Timecode, output: bv32)
    ensures var tagged := Tagged(Some(Remembered(timestamp, input, timecode)), output);
            && tagged.Some? && tagged.value.timecode == timecode
            && tagged.value.flags & MASK == input & MASK
            && tagged.value.flags & !MASK == output & !MASK
  {
  }

  // The table as the driver keeps it.

  class Metadata {
    const tss: array<Record>
    var metadataIdx: nat

    ghost predicate Valid()
      reads this, tss
    {
      tss.Length == SLOTS && metadataIdx <= SLOTS
    }

    ghost function View(): (r: Ring)
      reads this, tss
      requires Valid()
      ensures r.Shaped()
    {
      Ring(tss[..], metadataIdx)
    }

    constructor ()
      ensures Valid() && fresh(tss) && View() == Empty()
    {
      metadataIdx := 0;
      tss := new Record[SLOTS](k => BLANK);
      new;
      assert tss[..] == Empty().slots;
    }

    method SetTsMetadata(timestamp: nat, flags: bv32, timecode: Timecode)
      requires Valid()
      modifies this`metadataIdx, tss
      ensures Valid() && View() == Put(old(View()), Remembered(timestamp, flags, timecode))
    {
      if metadataIdx >= SLOTS {
        metadataIdx := 0;
      }
      tss[metadataIdx] := Record(timestamp, flags & MASK, timecode);
      metadataIdx := metadataIdx + 1;
    }

    method Find(timestamp: nat) returns (k: nat)
      requires Valid()
      ensures k == FirstMatch(tss[..], timestamp, 0)
    {
      k := 0;
      while k < SLOTS && tss[k].timestamp != timestamp
        invariant 0 <= k <= SLOTS
        invariant FirstMatch(tss[..], timestamp, k) == FirstMatch(tss[..], timestamp, 0)
      {
        k := k + 1;
      }
    }

    /** What an output of this timestamp gets; its other flags stay as they are. */
    method GetTsMetadata(timestamp: nat, flags: bv32) returns (found: Option<Record>)
      requires Valid()
      ensures found == Tagged(Get(View(), timestamp), flags)
    {
      var k := Find(timestamp);
      if k < SLOTS {
        return Some(tss[k].(flags := Merged(flags, tss[k].flags)));
      }
      if metadataIdx >= SLOTS {
        return None;
      }
      return Some(tss[metadataIdx].(flags := Merged(flags, tss[metadataIdx].flags)));
    }
  }
}
