/** CacheDb access metrics: hit and miss counters and miss penalties for five access
    categories, a millisecond histogram of penalties, and the record that composes them. */
module CacheRecords {
  import opened Ints
  import Buckets

  /** The five access categories of CacheDb, one counter each. */
  datatype Counts = Counts(blockHash: int, basic: int, storage: int, codeByHash: int, loadAccount: int)

  const Zero: Counts := Counts(0, 0, 0, 0, 0)

  /** Every counter is within `u64`. */
  predicate Fits(c: Counts)
  {
    && 0 <= c.blockHash <= U64_MAX
    && 0 <= c.basic <= U64_MAX
    && 0 <= c.storage <= U64_MAX
    && 0 <= c.codeByHash <= U64_MAX
    && 0 <= c.loadAccount <= U64_MAX
  }

  /** Category-wise sum. */
  function Add(a: Counts, b: Counts): Counts
  {
    Counts(a.blockHash + b.blockHash, a.basic + b.basic, a.storage + b.storage,
           a.codeByHash + b.codeByHash, a.loadAccount + b.loadAccount)
  }

  /** Sum over all five categories. */
  function Sum(c: Counts): int
  {
    c.blockHash + c.basic + c.storage + c.codeByHash + c.loadAccount
  }

  /** Merging counter groups does not depend on the order of the operands ... */
  lemma AddCommutes(a: Counts, b: Counts)
    ensures Add(a, b) == Add(b, a)
  {
  }

  /** ... nor on their grouping; the zero group changes nothing. */
  lemma AddAssociates(a: Counts, b: Counts, c: Counts)
    ensures Add(Add(a, b), c) == Add(a, Add(b, c))
    ensures Add(a, Zero) == a
  {
  }

  /** Merging never lowers a counter. */
  lemma AddMonotone(a: Counts, b: Counts)
    requires Fits(b)
    ensures a.blockHash <= Add(a, b).blockHash && a.basic <= Add(a, b).basic
    ensures a.storage <= Add(a, b).storage && a.codeByHash <= Add(a, b).codeByHash
    ensures a.loadAccount <= Add(a, b).loadAccount
  {
  }

  /** The accesses summed over all categories are the hits plus the misses. */
  lemma SumOfAdd(a: Counts, b: Counts)
    ensures Sum(Add(a, b)) == Sum(a) + Sum(b)
  {
  }

  /** Number of penalty buckets. */
  const PENALTY_STEP_SIZE: nat := 200
  /** Inclusive upper bounds, in milliseconds, of the penalty buckets: 1, 2, ..., 200. There is
      no catch-all bucket: a penalty above 200 ms is not counted. */
  const PENALTY_STEP: seq<u64> := seq(PENALTY_STEP_SIZE, i requires 0 <= i < PENALTY_STEP_SIZE => i + 1)

  /** The penalty bucket of a time of `t` milliseconds, for `t <= 200`: bucket `max(t, 1) - 1`. */
  function PenaltyBucket(t: u64): (i: nat)
    requires t <= PENALTY_STEP_SIZE
    ensures i < PENALTY_STEP_SIZE
  {
    if t == 0 then 0 else t - 1
  }

  /** Scanning the penalty bounds finds the closed-form bucket, or no bucket above 200 ms. */
  lemma PenaltyScanFindsBucket(t: u64)
    ensures Buckets.FirstFit(PENALTY_STEP, t)
         == if t <= PENALTY_STEP_SIZE then PenaltyBucket(t) else PENALTY_STEP_SIZE
  {
    var r := Buckets.FirstFit(PENALTY_STEP, t);
    assert r < PENALTY_STEP_SIZE ==> PENALTY_STEP[r] == r + 1;
    if t <= PENALTY_STEP_SIZE {
      var b := PenaltyBucket(t);
      assert PENALTY_STEP[b] == b + 1;
    }
  }

  class CacheHits {
    var blockHash: u64
    var basic: u64
    var storage: u64
    var codeByHash: u64
    var loadAccount: u64

    function Categories(): Counts
      reads this
    {
      Counts(blockHash, basic, storage, codeByHash, loadAccount)
    }

    /** `Default`: every counter zero. */
    constructor ()
      ensures Categories() == Zero
    {
      blockHash, basic, storage, codeByHash, loadAccount := 0, 0, 0, 0, 0;
    }

    /** Add `other`'s counters to these, category by category. */
    method Update(other: CacheHits)
      requires Fits(Add(Categories(), other.Categories()))
      modifies this
      ensures Categories() == Add(old(Categories()), old(other.Categories()))
    {
      blockHash := CheckedAddU64(blockHash, other.blockHash);
      basic := CheckedAddU64(basic, other.basic);
      storage := CheckedAddU64(storage, other.storage);
      codeByHash := CheckedAddU64(codeByHash, other.codeByHash);
      loadAccount := CheckedAddU64(loadAccount, other.loadAccount);
    }
  }

  class CacheMisses {
    var blockHash: u64
    var basic: u64
    var storage: u64
    var codeByHash: u64
    var loadAccount: u64

    function Categories(): Counts
      reads this
    {
      Counts(blockHash, basic, storage, codeByHash, loadAccount)
    }

    /** `Default`: every counter zero. */
    constructor ()
      ensures Categories() == Zero
    {
      blockHash, basic, storage, codeByHash, loadAccount := 0, 0, 0, 0, 0;
    }

    /** Add `other`'s counters to these, category by category. */
    method Update(other: CacheMisses)
      requires Fits(Add(Categories(), other.Categories()))
      modifies this
      ensures Categories() == Add(old(Categories()), old(other.Categories()))
    {
      blockHash := CheckedAddU64(blockHash, other.blockHash);
      basic := CheckedAddU64(basic, other.basic);
      storage := CheckedAddU64(storage, other.storage);
      codeByHash := CheckedAddU64(codeByHash, other.codeByHash);
      loadAccount := CheckedAddU64(loadAccount, other.loadAccount);
    }
  }

  class CacheMissesPenalty {
    var blockHash: u64
    var basic: u64
    var storage: u64
    var codeByHash: u64
    var loadAccount: u64
    var percentile: array<u64>

    ghost predicate Valid()
      reads this
    {
      percentile.Length == PENALTY_STEP_SIZE
    }

    function Categories(): Counts
      reads this
    {
      Counts(blockHash, basic, storage, codeByHash, loadAccount)
    }

    function Percentiles(): seq<u64>
      reads this, percentile
    {
      percentile[..]
    }

    /** `Default`: every counter and every bucket zero. */
    constructor ()
      ensures Valid() && fresh(percentile)
      ensures Categories() == Zero
      ensures forall i :: 0 <= i < PENALTY_STEP_SIZE ==> Percentiles()[i] == 0
      ensures Buckets.Total(Percentiles()) == 0
    {
      blockHash, basic, storage, codeByHash, loadAccount := 0, 0, 0, 0, 0;
      percentile := new u64[PENALTY_STEP_SIZE](_ => 0);
      new;
      Buckets.TotalOfZeros(Percentiles());
    }

    /** Add `other`'s five category counters to these; the histogram is not merged. */
    method Update(other: CacheMissesPenalty)
      requires Fits(Add(Categories(), other.Categories()))
      modifies this
      ensures Categories() == Add(old(Categories()), old(other.Categories()))
      ensures percentile == old(percentile) && Percentiles() == old(Percentiles())
    {
      blockHash := CheckedAddU64(blockHash, other.blockHash);
      basic := CheckedAddU64(basic, other.basic);
      storage := CheckedAddU64(storage, other.storage);
      codeByHash := CheckedAddU64(codeByHash, other.codeByHash);
      loadAccount := CheckedAddU64(loadAccount, other.loadAccount);
    }

    /** `percentile`: convert a penalty of `cycles` to milliseconds with `cyclesToMs` and count it
        in the bucket of that time; a time above 200 ms is not counted anywhere. */
    method Percentile(cycles: u64, cyclesToMs: u64 -> u64)
      requires Valid()
      requires cyclesToMs(cycles) <= PENALTY_STEP_SIZE ==>
                 percentile[PenaltyBucket(cyclesToMs(cycles))] < U64_MAX
      modifies percentile
      ensures cyclesToMs(cycles) <= PENALTY_STEP_SIZE ==>
                var b := PenaltyBucket(cyclesToMs(cycles));
                Percentiles() == old(Percentiles())[b := old(Percentiles())[b] + 1]
      ensures cyclesToMs(cycles) > PENALTY_STEP_SIZE ==> Percentiles() == old(Percentiles())
      ensures Buckets.Total(Percentiles())
           == Buckets.Total(old(Percentiles())) + if cyclesToMs(cycles) <= PENALTY_STEP_SIZE then 1 else 0
      ensures Categories() == old(Categories())
    {
      var time := cyclesToMs(cycles);
      PenaltyScanFindsBucket(time);
      for index := 0 to PENALTY_STEP_SIZE
        invariant index <= Buckets.FirstFit(PENALTY_STEP, time)
        invariant Percentiles() == old(Percentiles())
      {
        if time <= PENALTY_STEP[index] {
          percentile[index] := CheckedAddU64(percentile[index], 1);
          Buckets.TotalUpdate(old(Percentiles()), index, old(Percentiles())[index] + 1);
          return;
        }
      }
    }
  }

  class CacheDbRecord {
    var hits: CacheHits
    var misses: CacheMisses
    var penalty: CacheMissesPenalty

    ghost predicate Valid()
      reads this, penalty
    {
      penalty.Valid()
    }

    /** `Default`: fresh, zeroed hits, misses and penalty. */
    constructor ()
      ensures Valid() && fresh(hits) && fresh(misses) && fresh(penalty) && fresh(penalty.percentile)
      ensures hits.Categories() == Zero && misses.Categories() == Zero
      ensures penalty.Categories() == Zero
      ensures forall i :: 0 <= i < PENALTY_STEP_SIZE ==> penalty.Percentiles()[i] == 0
    {
      hits := new CacheHits();
      misses := new CacheMisses();
      penalty := new CacheMissesPenalty();
    }

    /** Merge `other` into this record: hits, misses and penalty counters each add up, and
        the penalty histogram stays as it was. */
    method Update(other: CacheDbRecord)
      requires Valid()
      requires Fits(Add(hits.Categories(), other.hits.Categories()))
      requires Fits(Add(misses.Categories(), other.misses.Categories()))
      requires Fits(Add(penalty.Categories(), other.penalty.Categories()))
      modifies hits, misses, penalty
      ensures Valid()
      ensures hits.Categories() == Add(old(hits.Categories()), old(other.hits.Categories()))
      ensures misses.Categories() == Add(old(misses.Categories()), old(other.misses.Categories()))
      ensures penalty.Categories() == Add(old(penalty.Categories()), old(other.penalty.Categories()))
      ensures penalty.Percentiles() == old(penalty.Percentiles())
    {
      hits.Update(other.hits);
      misses.Update(other.misses);
      penalty.Update(other.penalty);
    }

    /** Accesses per category: hits plus misses. */
    function Accesses(): Counts
      reads this, hits, misses
    {
      Add(hits.Categories(), misses.Categories())
    }

    /** `total_in_basic`. */
    function TotalInBasic(): (r: u64)
      reads this, hits, misses
      requires hits.basic + misses.basic <= U64_MAX
      ensures r == Accesses().basic
    {
      CheckedAddU64(hits.basic, misses.basic)
    }

    /** `total_in_code_by_hash`. */
    function TotalInCodeByHash(): (r: u64)
      reads this, hits, misses
      requires hits.codeByHash + misses.codeByHash <= U64_MAX
      ensures r == Accesses().codeByHash
    {
      CheckedAddU64(hits.codeByHash, misses.codeByHash)
    }

    /** `total_in_storage`. */
    function TotalInStorage(): (r: u64)
      reads this, hits, misses
      requires hits.storage + misses.storage <= U64_MAX
      ensures r == Accesses().storage
    {
      CheckedAddU64(hits.storage, misses.storage)
    }

    /** `total_in_block_hash`. */
    function TotalInBlockHash(): (r: u64)
      reads this, hits, misses
      requires hits.blockHash + misses.blockHash <= U64_MAX
      ensures r == Accesses().blockHash
    {
      CheckedAddU64(hits.blockHash, misses.blockHash)
    }

    /** `total_in_load_account`. */
    function TotalInLoadAccount(): (r: u64)
      reads this, hits, misses
      requires hits.loadAccount + misses.loadAccount <= U64_MAX
      ensures r == Accesses().loadAccount
    {
      CheckedAddU64(hits.loadAccount, misses.loadAccount)
    }

    /** `total_hits`: the running sum is checked after each of its four additions; since every
        term is non-negative, all four checks pass exactly when the final sum fits. */
    function TotalHits(): (r: u64)
      reads this, hits
      requires Sum(hits.Categories()) <= U64_MAX
      ensures r == Sum(hits.Categories())
    {
      var total := CheckedAddU64(hits.basic, hits.codeByHash);
      var total := CheckedAddU64(total, hits.storage);
      var total := CheckedAddU64(total, hits.blockHash);
      CheckedAddU64(total, hits.loadAccount)
    }

    /** `total_miss`, checked like `total_hits`. */
    function TotalMiss(): (r: u64)
      reads this, misses
      requires Sum(misses.Categories()) <= U64_MAX
      ensures r == Sum(misses.Categories())
    {
      var total := CheckedAddU64(misses.basic, misses.codeByHash);
      var total := CheckedAddU64(total, misses.storage);
      var total := CheckedAddU64(total, misses.blockHash);
      CheckedAddU64(total, misses.loadAccount)
    }

    /** `total_penalty_times`, checked like `total_hits`. */
    function TotalPenaltyTimes(): (r: u64)
      reads this, penalty
      requires Sum(penalty.Categories()) <= U64_MAX
      ensures r == Sum(penalty.Categories())
    {
      var total := CheckedAddU64(penalty.basic, penalty.codeByHash);
      var total := CheckedAddU64(total, penalty.storage);
      var total := CheckedAddU64(total, penalty.blockHash);
      CheckedAddU64(total, penalty.loadAccount)
    }
  }
}
