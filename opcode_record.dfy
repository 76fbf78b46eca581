/** Per-opcode execution metrics: a 256-entry table of (count, time, gas), a 4-bucket latency
    ladder for SLOAD, the total time, and the flag that tells a never-written record apart. */
module OpcodeRecords {
  import opened Ints
  import Buckets

  /** Number of SLOAD latency buckets. */
  const STEP_LEN: nat := 4
  /** Inclusive upper bounds of the SLOAD buckets, ascending; the last one admits every `u64`. */
  const SLOAD_OPCODE_TIME_STEP: seq<u64> := [1, 10, 100, U64_MAX]
  /** Number of opcodes, one table entry each. */
  const OPCODE_COUNT: nat := 256

  /** One opcode's entry: how often it ran, the cycles it took, the gas it used. */
  datatype Entry = Entry(count: u64, time: u64, gas: i128)

  /** One SLOAD bucket: its latency bound and how many loads fell in it. */
  datatype SloadBucket = SloadBucket(threshold: u64, count: u64)

  predicate EntriesAddable(a: Entry, b: Entry)
  {
    && a.count + b.count <= U64_MAX
    && a.time + b.time <= U64_MAX
    && I128_MIN <= a.gas + b.gas <= I128_MAX
  }

  function EntrySum(a: Entry, b: Entry): Entry
    requires EntriesAddable(a, b)
  {
    Entry(a.count + b.count, a.time + b.time, a.gas + b.gas)
  }

  /** Two tables can be merged without any of the three checked additions failing. */
  predicate TablesAddable(s: seq<Entry>, t: seq<Entry>)
  {
    |s| == |t| && forall i :: 0 <= i < |s| ==> EntriesAddable(s[i], t[i])
  }

  /** Merged table: entry by entry, each of the three fields is the sum of the two. */
  function TableSum(s: seq<Entry>, t: seq<Entry>): (r: seq<Entry>)
    requires TablesAddable(s, t)
    ensures |r| == |s|
    ensures forall i :: 0 <= i < |s| ==> r[i] == EntrySum(s[i], t[i])
  {
    if |s| == 0 then [] else [EntrySum(s[0], t[0])] + TableSum(s[1..], t[1..])
  }

  /** Two ladders can be merged without a bucket count overflowing. */
  predicate LaddersAddable(s: seq<SloadBucket>, t: seq<SloadBucket>)
  {
    |s| == |t| && forall i :: 0 <= i < |s| ==> s[i].count + t[i].count <= U64_MAX
  }

  /** Merged ladder: the first ladder's bounds, the summed counts. */
  function LadderSum(s: seq<SloadBucket>, t: seq<SloadBucket>): (r: seq<SloadBucket>)
    requires LaddersAddable(s, t)
    ensures |r| == |s|
    ensures forall i :: 0 <= i < |s| ==>
              r[i].threshold == s[i].threshold && r[i].count == s[i].count + t[i].count
  {
    if |s| == 0 then []
    else [SloadBucket(s[0].threshold, s[0].count + t[0].count)] + LadderSum(s[1..], t[1..])
  }

  /** The bucket counts of a ladder, in bucket order. */
  function LadderCounts(l: seq<SloadBucket>): seq<int>
  {
    seq(|l|, i requires 0 <= i < |l| => l[i].count)
  }

  /** The ladder with bucket `i` counted once more. */
  function Bump(l: seq<SloadBucket>, i: nat): seq<SloadBucket>
    requires i < |l| && l[i].count < U64_MAX
  {
    l[i := l[i].(count := l[i].count + 1)]
  }

  /** The bucket a SLOAD latency of `t` falls in: the least index whose bound is at least `t`.
      One always exists, because the last bound is `u64::MAX`. */
  function SloadBucketIndex(t: u64): (i: nat)
    ensures i < STEP_LEN
    ensures t <= SLOAD_OPCODE_TIME_STEP[i]
    ensures forall j :: 0 <= j < i ==> SLOAD_OPCODE_TIME_STEP[j] < t
  {
    assert SLOAD_OPCODE_TIME_STEP[STEP_LEN - 1] == U64_MAX;
    Buckets.FirstFit(SLOAD_OPCODE_TIME_STEP, t)
  }

  /** The table of a fresh record. */
  function ZeroTable(): seq<Entry>
  {
    seq(OPCODE_COUNT, _ => Entry(0, 0, 0))
  }

  /** The ladder of a fresh record: the constant bounds, every count zero. */
  function DefaultLadder(): seq<SloadBucket>
  {
    seq(STEP_LEN, i requires 0 <= i < STEP_LEN => SloadBucket(SLOAD_OPCODE_TIME_STEP[i], 0))
  }

  /** Counting one more SLOAD raises the ladder's total by exactly one. */
  lemma BumpTotal(l: seq<SloadBucket>, i: nat)
    requires i < |l| && l[i].count < U64_MAX
    ensures Buckets.Total(LadderCounts(Bump(l, i))) == Buckets.Total(LadderCounts(l)) + 1
  {
    assert LadderCounts(Bump(l, i)) == LadderCounts(l)[i := l[i].count + 1];
    Buckets.TotalUpdate(LadderCounts(l), i, l[i].count + 1);
  }

  /** Merging ladders adds their totals: no SLOAD is lost or counted twice. */
  lemma LadderSumTotal(s: seq<SloadBucket>, t: seq<SloadBucket>)
    requires LaddersAddable(s, t)
    ensures Buckets.Total(LadderCounts(LadderSum(s, t)))
         == Buckets.Total(LadderCounts(s)) + Buckets.Total(LadderCounts(t))
  {
    Buckets.TotalPointwiseSum(LadderCounts(s), LadderCounts(t), LadderCounts(LadderSum(s, t)));
  }

  /** The first-write shortcut agrees with addition when the target is in its default state:
      adding a table to the zero table, or a ladder with the constant bounds to the default
      ladder, gives that table or ladder back. */
  lemma FirstWriteIsAdditionToDefault(t: seq<Entry>, l: seq<SloadBucket>)
    requires |t| == OPCODE_COUNT && |l| == STEP_LEN
    requires forall i :: 0 <= i < STEP_LEN ==> l[i].threshold == SLOAD_OPCODE_TIME_STEP[i]
    ensures TablesAddable(ZeroTable(), t) && TableSum(ZeroTable(), t) == t
    ensures LaddersAddable(DefaultLadder(), l) && LadderSum(DefaultLadder(), l) == l
  {
  }

  /** Merging tables is commutative. */
  lemma TableSumCommutes(s: seq<Entry>, t: seq<Entry>)
    requires TablesAddable(s, t)
    ensures TablesAddable(t, s) && TableSum(s, t) == TableSum(t, s)
  {
  }

  /** Merging tables is associative wherever both groupings can be computed. Both must be
      required: the signed gas sum (a + b) + c can stay in range while b + c leaves it. */
  lemma TableSumAssociates(s: seq<Entry>, t: seq<Entry>, u: seq<Entry>)
    requires TablesAddable(s, t) && TablesAddable(TableSum(s, t), u)
    requires TablesAddable(t, u) && TablesAddable(s, TableSum(t, u))
    ensures TableSum(TableSum(s, t), u) == TableSum(s, TableSum(t, u))
  {
  }

  /** Two ladders have the same bucket bounds. */
  predicate SameBounds(s: seq<SloadBucket>, t: seq<SloadBucket>)
  {
    |s| == |t| && forall i :: 0 <= i < |s| ==> s[i].threshold == t[i].threshold
  }

  /** Merging ladders is commutative when both use the same bounds; otherwise the merge keeps
      the target's bounds, so swapping the operands changes the result. */
  lemma LadderSumCommutes(s: seq<SloadBucket>, t: seq<SloadBucket>)
    requires LaddersAddable(s, t) && SameBounds(s, t)
    ensures LaddersAddable(t, s) && LadderSum(s, t) == LadderSum(t, s)
  {
  }

  /** Merging ladders is associative. The counts only grow, so the overflow checks of one
      grouping imply those of the other; the bounds are always the leftmost ladder's. */
  lemma LadderSumAssociates(s: seq<SloadBucket>, t: seq<SloadBucket>, u: seq<SloadBucket>)
    requires LaddersAddable(s, t) && LaddersAddable(LadderSum(s, t), u)
    ensures LaddersAddable(t, u) && LaddersAddable(s, LadderSum(t, u))
    ensures LadderSum(LadderSum(s, t), u) == LadderSum(s, LadderSum(t, u))
  {
    forall i | 0 <= i < |s|
      ensures t[i].count + u[i].count <= U64_MAX
      ensures s[i].count + (t[i].count + u[i].count) <= U64_MAX
    {
      assert LadderSum(s, t)[i].count == s[i].count + t[i].count;
    }
  }

  class OpcodeRecord {
    var opcodeRecord: array<Entry>
    var sloadOpcodeRecord: array<SloadBucket>
    var totalTime: u64
    var isUpdated: bool

    ghost predicate Valid()
      reads this
    {
      opcodeRecord.Length == OPCODE_COUNT && sloadOpcodeRecord.Length == STEP_LEN
    }

    /** `this` and `other` share no storage, as two Rust values borrowed `&mut` never do. */
    ghost predicate Separate(other: OpcodeRecord)
      reads this, other
    {
      this != other
      && opcodeRecord != other.opcodeRecord
      && sloadOpcodeRecord != other.sloadOpcodeRecord
    }

    function Table(): seq<Entry>
      reads this, opcodeRecord
    {
      opcodeRecord[..]
    }

    function Ladder(): seq<SloadBucket>
      reads this, sloadOpcodeRecord
    {
      sloadOpcodeRecord[..]
    }

    /** `Default`: a zero table, the constant SLOAD bounds with zero counts, not updated. */
    constructor ()
      ensures Valid() && fresh(opcodeRecord) && fresh(sloadOpcodeRecord)
      ensures forall i :: 0 <= i < OPCODE_COUNT ==> Table()[i] == Entry(0, 0, 0)
      ensures forall i :: 0 <= i < STEP_LEN ==>
                Ladder()[i].threshold == SLOAD_OPCODE_TIME_STEP[i] && Ladder()[i].count == 0
      ensures Buckets.Total(LadderCounts(Ladder())) == 0
      ensures totalTime == 0 && !isUpdated
    {
      opcodeRecord := new Entry[OPCODE_COUNT](_ => Entry(0, 0, 0));
      sloadOpcodeRecord := new SloadBucket[STEP_LEN](
        i requires 0 <= i < STEP_LEN => SloadBucket(SLOAD_OPCODE_TIME_STEP[i], 0));
      totalTime := 0;
      isUpdated := false;
      new;
      Buckets.TotalOfZeros(LadderCounts(Ladder()));
    }

    /** `not_empty`: the `is_updated` flag. */
    function NotEmpty(): (r: bool)
      reads this
      ensures r <==> isUpdated
    {
      isUpdated
    }

    /** Merge `other` into this record.
        - `other` never updated: nothing changes.
        - `this` never updated: the total times add up, the two records exchange their tables
          and ladders (a move, not a copy), and `this` becomes updated.
        - both updated: the total times, every table field and every bucket count add up;
          bucket bounds stay those of `this`, and `other` is left as it was. */
    method Update(other: OpcodeRecord)
      requires Valid() && other.Valid() && Separate(other)
      requires other.isUpdated ==> totalTime + other.totalTime <= U64_MAX
      requires other.isUpdated && isUpdated ==>
                 TablesAddable(Table(), other.Table()) && LaddersAddable(Ladder(), other.Ladder())
      modifies this, other, opcodeRecord, sloadOpcodeRecord
      ensures Valid() && other.Valid() && Separate(other)
      ensures other.totalTime == old(other.totalTime) && other.isUpdated == old(other.isUpdated)
      ensures !old(other.isUpdated) ==>
                && totalTime == old(totalTime) && isUpdated == old(isUpdated)
                && opcodeRecord == old(opcodeRecord) && sloadOpcodeRecord == old(sloadOpcodeRecord)
                && Table() == old(Table()) && Ladder() == old(Ladder())
                && other.opcodeRecord == old(other.opcodeRecord)
                && other.sloadOpcodeRecord == old(other.sloadOpcodeRecord)
                && other.Table() == old(other.Table()) && other.Ladder() == old(other.Ladder())
      ensures old(other.isUpdated) ==> totalTime == old(totalTime) + old(other.totalTime) && isUpdated
      ensures old(other.isUpdated) && !old(isUpdated) ==>
                && opcodeRecord == old(other.opcodeRecord) && other.opcodeRecord == old(opcodeRecord)
                && sloadOpcodeRecord == old(other.sloadOpcodeRecord)
                && other.sloadOpcodeRecord == old(sloadOpcodeRecord)
                && Table() == old(other.Table()) && Ladder() == old(other.Ladder())
                && other.Table() == old(Table()) && other.Ladder() == old(Ladder())
      ensures old(other.isUpdated) && old(isUpdated) ==>
                && opcodeRecord == old(opcodeRecord) && sloadOpcodeRecord == old(sloadOpcodeRecord)
                && Table() == TableSum(old(Table()), old(other.Table()))
                && Ladder() == LadderSum(old(Ladder()), old(other.Ladder()))
                && other.opcodeRecord == old(other.opcodeRecord)
                && other.sloadOpcodeRecord == old(other.sloadOpcodeRecord)
                && other.Table() == old(other.Table()) && other.Ladder() == old(other.Ladder())
    {
      if !other.isUpdated {
        return;
      }
      ghost var t0, o0 := Table(), other.Table();
      ghost var l0, p0 := Ladder(), other.Ladder();

      totalTime := CheckedAddU64(totalTime, other.totalTime);

      if !isUpdated {
        opcodeRecord, other.opcodeRecord := other.opcodeRecord, opcodeRecord;
        sloadOpcodeRecord, other.sloadOpcodeRecord := other.sloadOpcodeRecord, sloadOpcodeRecord;
        isUpdated := true;
        return;
      }

      for i := 0 to OPCODE_COUNT
        modifies opcodeRecord
        invariant forall j :: 0 <= j < i ==> opcodeRecord[j] == EntrySum(t0[j], o0[j])
        invariant forall j :: i <= j < OPCODE_COUNT ==> opcodeRecord[j] == t0[j]
      {
        var e, o := opcodeRecord[i], other.opcodeRecord[i];
        opcodeRecord[i] := Entry(CheckedAddU64(e.count, o.count),
                                 CheckedAddU64(e.time, o.time),
                                 CheckedAddI128(e.gas, o.gas));
      }

      for index := 0 to sloadOpcodeRecord.Length
        modifies sloadOpcodeRecord
        invariant forall j :: 0 <= j < index ==>
                    sloadOpcodeRecord[j] == SloadBucket(l0[j].threshold, l0[j].count + p0[j].count)
        invariant forall j :: index <= j < STEP_LEN ==> sloadOpcodeRecord[j] == l0[j]
      {
        var b := sloadOpcodeRecord[index];
        sloadOpcodeRecord[index] := b.(count := CheckedAddU64(b.count, other.sloadOpcodeRecord[index].count));
      }
    }

    /** `add_sload_opcode_record`: count one SLOAD of latency `opTime` in the first bucket
        whose constant bound is at least `opTime`; nothing else changes. */
    method AddSloadOpcodeRecord(opTime: u64)
      requires Valid()
      requires Ladder()[SloadBucketIndex(opTime)].count < U64_MAX
      modifies sloadOpcodeRecord
      ensures Ladder() == Bump(old(Ladder()), SloadBucketIndex(opTime))
      ensures Buckets.Total(LadderCounts(Ladder())) == Buckets.Total(LadderCounts(old(Ladder()))) + 1
      ensures Table() == old(Table()) && totalTime == old(totalTime) && isUpdated == old(isUpdated)
    {
      for index := 0 to STEP_LEN
        invariant index <= SloadBucketIndex(opTime)
        invariant Ladder() == old(Ladder())
      {
        if opTime <= SLOAD_OPCODE_TIME_STEP[index] {
          var b := sloadOpcodeRecord[index];
          sloadOpcodeRecord[index] := b.(count := CheckedAddU64(b.count, 1));
          BumpTotal(old(Ladder()), index);
          return;
        }
      }
      assert false;
    }
  }
}
