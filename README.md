# revm metrics records, modelled in Dafny

This project models the metric records of revm's `utils` crate (`crates/utils/src/types.rs`):

- `OpcodeRecord` holds per-opcode execution metrics. That is a 256-entry table of
  (count, cycles, gas), a four-bucket SLOAD latency ladder, the total time, and the
  `is_updated` flag.
- `CacheHits` and `CacheMisses` each hold five `u64` counters, one per CacheDb access
  category.
- `CacheMissesPenalty` holds the same five counters plus a 200-bucket millisecond histogram.
- `CacheDbRecord` composes the three and derives checked totals from them.

Files:

- `ints.dfy` (module `Ints`): the `u64` and `i128` ranges. It also models
  `checked_add(..).expect("overflow")` as an addition whose precondition says it does not
  overflow. A panic aborts the process, so nothing after it needs a model.
- `buckets.dfy` (module `Buckets`): the scan that finds the first bound at least as large
  as a value (`FirstFit`), the sum of a list of bucket counts, and lemmas about that sum.
  The lemma that solves the scan for the penalty bounds, `PenaltyScanFindsBucket`, is in
  `cache_record.dfy`.
- `opcode_record.dfy` (module `OpcodeRecords`): the table and ladder as pure values with
  their merge functions, and the class `OpcodeRecord` with its two arrays.
- `cache_record.dfy` (module `CacheRecords`): the five-category counter value `Counts`, the
  penalty bounds, and the classes `CacheHits`, `CacheMisses`, `CacheMissesPenalty` and
  `CacheDbRecord`.

Records are classes, because the source updates them in place. The fixed-size arrays are
Dafny `array`s. Each mutating method states the new state as a function of the old state.
Pure functions over `seq` state what a merge or a scan computes, and lemmas state the
properties of those functions.

How the source's behaviour is captured:

- **Moving the arrays.** On the first-write path, `OpcodeRecord::update` uses
  `std::mem::replace` to exchange the two records' arrays. The model swaps the two array
  references, so nothing is copied. `Separate` requires that the two records share no
  storage, which Rust's `&mut` borrows guarantee.
- **Total time on the first write.** `total_time` is added on the first-write path as well,
  as the code does.
- **SLOAD bucket.** `add_sload_opcode_record` compares the latency with the constant
  `SLOAD_OPCODE_TIME_STEP`, not with the bounds stored in the record, and the model does the
  same. The last bound is `u64::MAX`, so the loop's fall-through exit cannot be reached.
- **Penalty histogram.** The penalty bounds are exactly 1, 2, ..., 200, with no catch-all
  bucket. A penalty above 200 ms is therefore not counted. `CacheMissesPenalty::update`
  does not merge the histogram.
- **The update flag and merges.** `add_sload_opcode_record` does not set `is_updated`. If a
  record has only counted SLOAD latencies, `update` ignores it as a source. If it is the
  target of a first write, its SLOAD counts move into `other`. The first write agrees with
  addition only when the target is in its default state (`FirstWriteIsAdditionToDefault`).
- **Regrouping merges.** Gas is a signed `i128`. Merging three records in one grouping can
  stay in range while another grouping overflows. For example, `(MIN + MAX) + MAX` is in
  range but `MAX + MAX` is not. So `TableSumAssociates` requires both groupings to fit.

## Model

| member | source | states |
|---|---|---|
| `Buckets.FirstFit` | crates/utils/src/types.rs:82-91 | the scan's result is the least index whose bound is at least the value, or the ladder's length when no bound is |
| `Buckets.TotalOfZeros` | crates/utils/src/types.rs:27-30 | a ladder of zero counts has total zero |
| `Buckets.TotalUpdate` | crates/utils/src/types.rs:84-87 | replacing one bucket count changes the ladder total by exactly the difference |
| `Buckets.TotalPointwiseSum` | crates/utils/src/types.rs:72-77 | the total of a bucket-wise sum is the sum of the two totals |
| `OpcodeRecords.TableSum` | crates/utils/src/types.rs:57-70 | the merged table is as long as the first table, and each entry's count, time and gas are the sums of the two entries' |
| `OpcodeRecords.LadderSum` | crates/utils/src/types.rs:72-77 | each merged bucket keeps the target's bound and holds the sum of the two counts |
| `OpcodeRecords.SloadBucketIndex` | crates/utils/src/types.rs:8-8 | every `u64` latency has a bucket: the least index whose constant bound is at least it, always below 4 because the last bound is `u64::MAX` |
| `OpcodeRecords.BumpTotal` | crates/utils/src/types.rs:84-87 | counting one SLOAD raises the ladder total by exactly one |
| `OpcodeRecords.LadderSumTotal` | crates/utils/src/types.rs:72-77 | merging ladders adds their totals: no SLOAD is lost or counted twice |
| `OpcodeRecords.FirstWriteIsAdditionToDefault` | crates/utils/src/types.rs:49-55 | adopting `other`'s table and ladder equals adding them to a default table and ladder, when `other` uses the constant bounds |
| `OpcodeRecords.TableSumCommutes` | crates/utils/src/types.rs:57-70 | merging tables is commutative, including whether it overflows |
| `OpcodeRecords.LadderSumCommutes` | crates/utils/src/types.rs:72-77 | merging ladders with the same bounds is commutative, including whether it overflows |
| `OpcodeRecords.LadderSumAssociates` | crates/utils/src/types.rs:72-77 | merging ladders is associative; when one grouping fits, so does the other |
| `OpcodeRecords.TableSumAssociates` | crates/utils/src/types.rs:57-70 | merging tables is associative wherever both groupings fit |
| `OpcodeRecords.OpcodeRecord.constructor` | crates/utils/src/types.rs:25-34 | `Default`: a zero table, the constant SLOAD bounds with zero counts (ladder total zero), zero total time, not updated |
| `OpcodeRecords.OpcodeRecord.NotEmpty` | crates/utils/src/types.rs:93-95 | returns the `is_updated` flag |
| `OpcodeRecords.OpcodeRecord.Update` | crates/utils/src/types.rs:39-78 | if `other` is not updated, nothing changes on either side; otherwise the total times add up (overflow excluded) and `this` becomes updated; on the first write the two records exchange their tables and ladders without copying; when both are updated, every table entry and bucket count is the sum, bounds stay, and `other` is unchanged |
| `OpcodeRecords.OpcodeRecord.AddSloadOpcodeRecord` | crates/utils/src/types.rs:81-91 | exactly the bucket named by `SloadBucketIndex` gains one, the ladder total grows by exactly one, and the table, total time and flag are unchanged |
| `CacheRecords.AddCommutes` | crates/utils/src/types.rs:109-124 | merging counter groups is commutative |
| `CacheRecords.AddAssociates` | crates/utils/src/types.rs:138-153 | merging counter groups is associative, with the zero group as identity |
| `CacheRecords.AddMonotone` | crates/utils/src/types.rs:195-210 | a merge never lowers a counter |
| `CacheRecords.SumOfAdd` | crates/utils/src/types.rs:281-308 | summed over the five categories, the accesses (hits plus misses) are the total hits plus the total misses |
| `CacheRecords.PenaltyBucket` | crates/utils/src/types.rs:156-168 | a time of at most 200 ms falls in one of the 200 buckets, index `max(t, 1) - 1` |
| `CacheRecords.PenaltyScanFindsBucket` | crates/utils/src/types.rs:212-221 | scanning the bounds 1..=200 finds bucket `max(t, 1) - 1` for `t <= 200` and no bucket above 200 |
| `CacheRecords.CacheHits.constructor` | crates/utils/src/types.rs:99-106 | `Default`: all five counters zero |
| `CacheRecords.CacheHits.Update` | crates/utils/src/types.rs:109-124 | each of the five counters becomes the sum, overflow excluded |
| `CacheRecords.CacheMisses.constructor` | crates/utils/src/types.rs:128-135 | `Default`: all five counters zero |
| `CacheRecords.CacheMisses.Update` | crates/utils/src/types.rs:138-153 | each of the five counters becomes the sum, overflow excluded |
| `CacheRecords.CacheMissesPenalty.constructor` | crates/utils/src/types.rs:181-192 | `Default`: five zero counters and a 200-bucket histogram of zeros |
| `CacheRecords.CacheMissesPenalty.Update` | crates/utils/src/types.rs:195-210 | each of the five counters becomes the sum; the histogram is untouched |
| `CacheRecords.CacheMissesPenalty.Percentile` | crates/utils/src/types.rs:212-221 | with `t` the converted time, a `t <= 200` adds one to bucket `max(t, 1) - 1` only; a `t > 200` changes nothing; the histogram total grows by one exactly when `t <= 200`; the counters never change |
| `CacheRecords.CacheDbRecord.constructor` | crates/utils/src/types.rs:225-230 | `Default`: fresh, zeroed hits, misses and penalty |
| `CacheRecords.CacheDbRecord.Update` | crates/utils/src/types.rs:234-238 | exactly the three sub-updates: hits, misses and penalty counters add up, and the histogram stays |
| `CacheRecords.CacheDbRecord.TotalInBasic` | crates/utils/src/types.rs:241-246 | the `basic` accesses, i.e. hits plus misses, defined exactly when that sum fits `u64`; reads only |
| `CacheRecords.CacheDbRecord.TotalInCodeByHash` | crates/utils/src/types.rs:249-254 | the `code_by_hash` accesses, hits plus misses, defined exactly when that sum fits `u64` |
| `CacheRecords.CacheDbRecord.TotalInStorage` | crates/utils/src/types.rs:257-262 | the `storage` accesses, hits plus misses, defined exactly when that sum fits `u64` |
| `CacheRecords.CacheDbRecord.TotalInBlockHash` | crates/utils/src/types.rs:265-270 | the `block_hash` accesses, hits plus misses, defined exactly when that sum fits `u64` |
| `CacheRecords.CacheDbRecord.TotalInLoadAccount` | crates/utils/src/types.rs:273-278 | the `load_account` accesses, hits plus misses, defined exactly when that sum fits `u64` |
| `CacheRecords.CacheDbRecord.TotalHits` | crates/utils/src/types.rs:281-292 | the sum of the five hit counters; the four running checks all pass exactly when that sum fits `u64` |
| `CacheRecords.CacheDbRecord.TotalMiss` | crates/utils/src/types.rs:295-308 | the sum of the five miss counters, checked in the same way |
| `CacheRecords.CacheDbRecord.TotalPenaltyTimes` | crates/utils/src/types.rs:311-326 | the sum of the five penalty counters, checked in the same way |

## Left out

- `convert_cycles_to_ms` (`crate::time_utils`): its source is not part of this model. `Percentile` takes it as a parameter `cyclesToMs: u64 -> u64`, and nothing is assumed about it.
- `crates/interpreter/src/utils.rs` (`MyReporter`): it forwards tracing spans named `sload` to a log and holds no record state.
- Serde `Serialize`/`Deserialize`, `serde_arrays`, and the derived `Debug`, `Clone`, `Copy`, `PartialEq` and `Eq`: these are generated by libraries.
- The `RevmMetricRecord` alias: it is another name for `OpcodeRecord`.
- Overflow panics: each `expect("overflow")` becomes a precondition that the sum fits. The model does not describe the aborted state.
- `OpcodeRecords.LadderSumCommutes`: it holds only for ladders with the same bounds. The merge keeps the target's bounds, so with different bounds the order of the operands matters.
- `OpcodeRecords.OpcodeRecord.Update`: it does not cover `other` sharing storage with `this`. Two Rust `&mut` borrows cannot alias, so `Separate` requires this.
- `CacheRecords.PenaltyBucket`: its own contract states only that the index is below 200. `PenaltyScanFindsBucket` ties it to the scan.
