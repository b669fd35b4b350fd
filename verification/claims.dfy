/**
 * Frequency bookkeeping shared by both histogram classes. A calculation
 * pass decides, for every sample, the bin (or joint cell) that claims it,
 * if any; `owners[k]` records that decision for sample `k`. A bin's
 * frequency is the number of samples it claimed and the running total
 * before bin `b` is the number claimed by bins below `b`.
 */
module Claims {
  import opened Values

  /** The number of samples claimed by bin `b`. */
  function CountOf(owners: seq<Option<nat>>, b: nat): (r: nat)
    ensures r <= |owners|
  {
    if owners == [] then 0
    else CountOf(owners[..|owners| - 1], b) + (if owners[|owners| - 1] == Some(b) then 1 else 0)
  }

  /** The number of samples claimed by some bin below `b`. */
  function ClaimedBelow(owners: seq<Option<nat>>, b: nat): (r: nat)
    ensures r <= |owners|
  {
    if owners == [] then 0
    else
      var last := owners[|owners| - 1];
      ClaimedBelow(owners[..|owners| - 1], b) + (if last.Some? && last.value < b then 1 else 0)
  }

  /** The number of samples claimed by any bin at all. */
  function ClaimedCount(owners: seq<Option<nat>>): (r: nat)
    ensures r <= |owners|
  {
    if owners == [] then 0
    else ClaimedCount(owners[..|owners| - 1]) + (if owners[|owners| - 1].Some? then 1 else 0)
  }

  /** The sum of the frequencies of bins `0 .. b-1`. */
  function RunningTotal(owners: seq<Option<nat>>, b: nat): nat
  {
    if b == 0 then 0 else RunningTotal(owners, b - 1) + CountOf(owners, b - 1)
  }

  /** Claims below `b + 1` are the claims below `b` plus those of bin `b`. */
  lemma {:induction false} ClaimedBelowStep(owners: seq<Option<nat>>, b: nat)
    ensures ClaimedBelow(owners, b + 1) == ClaimedBelow(owners, b) + CountOf(owners, b)
  {
    if owners != [] {
      ClaimedBelowStep(owners[..|owners| - 1], b);
    }
  }

  /**
   * Summing the frequencies of bins `0 .. b-1` counts every claimed
   * sample once: no sample is counted in two bins.
   */
  lemma {:induction false} RunningTotalCountsClaims(owners: seq<Option<nat>>, b: nat)
    ensures RunningTotal(owners, b) == ClaimedBelow(owners, b)
    ensures RunningTotal(owners, b) <= |owners|
  {
    if b > 0 {
      RunningTotalCountsClaims(owners, b - 1);
      ClaimedBelowStep(owners, b - 1);
    } else {
      ClaimedBelowZero(owners);
    }
  }

  lemma {:induction false} ClaimedBelowZero(owners: seq<Option<nat>>)
    ensures ClaimedBelow(owners, 0) == 0
  {
    if owners != [] {
      ClaimedBelowZero(owners[..|owners| - 1]);
    }
  }

  /** Running totals never decrease from one bin to a later one. */
  lemma {:induction false} RunningTotalMonotone(owners: seq<Option<nat>>, a: nat, b: nat)
    requires a <= b
    ensures RunningTotal(owners, a) <= RunningTotal(owners, b)
  {
    if a < b {
      RunningTotalMonotone(owners, a, b - 1);
    }
  }

  /** When every claim goes to a bin below `n`, the bins below `n` hold all claims. */
  lemma {:induction false} ClaimedBelowAll(owners: seq<Option<nat>>, n: nat)
    requires forall k :: 0 <= k < |owners| && owners[k].Some? ==> owners[k].value < n
    ensures ClaimedBelow(owners, n) == ClaimedCount(owners)
  {
    if owners != [] {
      var init := owners[..|owners| - 1];
      assert forall k :: 0 <= k < |init| ==> init[k] == owners[k];
      ClaimedBelowAll(init, n);
    }
  }

  /** When every sample is claimed, all of them are counted. */
  lemma {:induction false} ClaimedCountAll(owners: seq<Option<nat>>)
    requires forall k :: 0 <= k < |owners| ==> owners[k].Some?
    ensures ClaimedCount(owners) == |owners|
  {
    if owners != [] {
      var init := owners[..|owners| - 1];
      assert forall k :: 0 <= k < |init| ==> init[k] == owners[k];
      ClaimedCountAll(init);
    }
  }

  /** Counting a prefix one sample longer adds that sample's claim. */
  lemma CountOfExtend(owners: seq<Option<nat>>, j: nat, b: nat)
    requires j < |owners|
    ensures CountOf(owners[..j + 1], b) == CountOf(owners[..j], b) + (if owners[j] == Some(b) then 1 else 0)
  {
    assert owners[..j + 1][..j] == owners[..j];
  }
}
