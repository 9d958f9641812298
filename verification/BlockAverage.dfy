/**
 The ring of block means that the lateral lag estimator keeps instead of its samples, proved to
 give the means of the samples themselves. Rounding is not modelled: the samples are real numbers.
 */
module BlockAverage {
  import opened Wrappers
  import opened Sequences
  import opened Reals

  // ----- Sums and means of samples -----

  function Mean(s: seq<real>): real
    requires s != []
  {
    Sum(s) / |s| as real
  }

  lemma {:induction false} SumOneMore(blocks: seq<seq<real>>, block: seq<real>)
    ensures Sum(Flatten(blocks + [block])) == Sum(Flatten(blocks)) + Sum(block)
  {
    FlattenOneMore(blocks, block);
    SumConcat(Flatten(blocks), block);
  }

  lemma TimesOneMore(n: nat, size: nat)
    ensures n * size + size == (n + 1) * size
  {
  }

  lemma {:induction false} FlattenLength(blocks: seq<seq<real>>, size: nat)
    requires forall b :: b in blocks ==> |b| == size
    ensures |Flatten(blocks)| == |blocks| * size
  {
    if blocks != [] {
      var rest := blocks[..|blocks| - 1];
      FlattenLength(rest, size);
      TimesOneMore(|rest|, size);
    }
  }

  /** The sum of `count` samples whose mean is `mean`. */
  function Times(mean: real, count: nat): real {
    if count == 0 then 0.0 else Times(mean, count - 1) + mean
  }

  lemma {:induction false} TimesIsProduct(mean: real, count: nat)
    ensures Times(mean, count) == mean * count as real
  {
    if count > 0 {
      TimesIsProduct(mean, count - 1);
      assert mean * (count - 1) as real + mean == mean * count as real;
    }
  }

  /** `mean` is the mean of so many samples that add up to `sum`. */
  predicate IsMean(mean: real, count: nat, sum: real) {
    Times(mean, count) == sum
  }

  function Updated(count: nat, mean: real, value: real): real {
    (count as real * mean + value) / (count + 1) as real
  }

  lemma RunningMean(count: nat, mean: real, sum: real, value: real)
    requires count > 0 ==> IsMean(mean, count, sum)
    requires count == 0 ==> sum == 0.0
    ensures IsMean(Updated(count, mean, value), count + 1, sum + value)
  {
    var total := count as real * mean + value;
    TimesIsProduct(mean, count);
    TimesIsProduct(total / (count + 1) as real, count + 1);
  }

  /** One mean for each block. */
  ghost predicate Means(means: seq<real>, blocks: seq<seq<real>>, blockSize: nat) {
    && |means| == |blocks|
    && forall j :: 0 <= j < |means| ==> |blocks[j]| == blockSize && IsMean(means[j], blockSize, Sum(blocks[j]))
  }

  /** The slots before `at` hold the latest means, the ones after it those before them, once the ring has filled. */
  ghost predicate Ring(slots: seq<real>, at: nat, means: seq<real>) {
    && at < |slots| && (|means| < |slots| ==> at == |means|)
    && (forall i :: 0 <= i < at ==> slots[i] == means[|means| - at + i])
    && (|means| >= |slots| ==> forall i :: at < i < |slots| ==> slots[i] == means[|means| - |slots| - at + i])
  }

  /** The open slot can take any value, and what it holds in the end is the next mean. */
  lemma RingTurns(slots: seq<real>, at: nat, means: seq<real>, value: real)
    requires Ring(slots, at, means)
    ensures Ring(slots[at := value], at, means)
    ensures Ring(slots[at := value], if at + 1 < |slots| then at + 1 else 0, means + [value])
  {
  }

  /** The next index around a ring. */
  method After(i: nat, n: nat) returns (next: nat)
    requires i < n
    ensures next == if i + 1 < n then i + 1 else 0
  {
    next := (i + 1) % n;
  }

  /** What the slots and counters say about the samples. */
  ghost predicate Summarizes(
    slots: seq<real>, at: nat, idx: nat, valid: nat, size: nat, blocks: seq<seq<real>>, means: seq<real>,
    open: seq<real>)
  {
    && idx == |open| < size && valid == (if |blocks| < |slots| then |blocks| else |slots|)
    && Means(means, blocks, size) && Ring(slots, at, means)
    && IsMean(if idx > 0 then slots[at] else 0.0, idx, Sum(open))
  }

  /** The summary once a sample has gone into the open slot: of the open block, or of that block completed. */
  ghost predicate Added(
    slots: seq<real>, at: nat, idx: nat, valid: nat, size: nat, blocks: seq<seq<real>>, means: seq<real>,
    open: seq<real>, mean: real, value: real)
  {
    if idx + 1 < size then Summarizes(slots, at, idx + 1, valid, size, blocks, means, open + [value])
    else
      && idx + 1 == size
      && Summarizes(slots, if at + 1 < |slots| then at + 1 else 0, 0,
                    if valid + 1 < |slots| then valid + 1 else |slots|,
                    size, blocks + [open + [value]], means + [mean], [])
  }

  lemma {:induction false} SampleAdded(
    slots: seq<real>, at: nat, idx: nat, valid: nat, size: nat, blocks: seq<seq<real>>, means: seq<real>,
    open: seq<real>, mean: real, value: real)
    requires Summarizes(slots, at, idx, valid, size, blocks, means, open)
    requires IsMean(mean, idx + 1, Sum(open) + value)
    ensures at < |slots| && Added(slots[at := mean], at, idx, valid, size, blocks, means, open, mean, value)
  {
    RingTurns(slots, at, means, mean);
    assert (open + [value])[..|open|] == open;
    if idx + 1 == size {
      assert Means(means + [mean], blocks + [open + [value]], size);
    }
  }

  class BlockAverage {
    const numBlocks: nat
    const blockSize: nat
    var blockIdx: nat
    var idx: nat
    const values: array<real>
    var validBlocks: nat
    /** The completed blocks of samples, in order, their means, and the samples of the open block. */
    ghost var blocks: seq<seq<real>>
    ghost var means: seq<real>
    ghost var open: seq<real>

    /** Every sample so far. */
    ghost function History(): seq<real>
      reads this
    {
      Flatten(blocks) + open
    }

    ghost predicate Valid()
      reads this, values
    {
      && 0 < numBlocks == values.Length && 0 < blockSize
      && Summarizes(values[..], blockIdx, idx, validBlocks, blockSize, blocks, means, open)
    }

    /** Restored blocks count as so many blocks of the initial value. */
    constructor (numBlocks: nat, blockSize: nat, validBlocks: nat, initialValue: real)
      requires 0 < numBlocks && 0 < blockSize && validBlocks <= numBlocks
      ensures Valid() && fresh(values) && this.numBlocks == numBlocks && this.blockSize == blockSize
      ensures open == [] && blocks == seq(validBlocks, _ => seq(blockSize, _ => initialValue))
    {
      this.numBlocks, this.blockSize, this.validBlocks := numBlocks, blockSize, validBlocks;
      blockIdx := validBlocks % numBlocks;
      idx := 0;
      values := new real[numBlocks](_ => initialValue);
      blocks, open := seq(validBlocks, _ => seq(blockSize, _ => initialValue)), [];
      means := seq(validBlocks, _ => initialValue);
      new;
      assert values[..] == seq(numBlocks, _ => initialValue);
      Restored(numBlocks, blockSize, validBlocks, initialValue);
    }

    method Update(value: real)
      requires Valid()
      modifies this, values
      ensures Valid() && History() == old(History()) + [value]
      ensures if old(idx) + 1 < blockSize then blocks == old(blocks) && open == old(open) + [value]
              else blocks == old(blocks) + [old(open) + [value]] && open == []
    {
      var mean := UpdateSlot(value);
      ExtendOpen(value, mean);
      if idx == 0 {
        CloseBlock(mean);
      }
    }

    /** The open block is complete, but for turning to the next slot. */
    ghost predicate AtBlockEnd(mean: real)
      reads this, values
    {
      && blockIdx < numBlocks == values.Length && 0 < blockSize
      && Summarizes(values[..], if blockIdx + 1 < numBlocks then blockIdx + 1 else 0, idx,
                    if validBlocks + 1 < numBlocks then validBlocks + 1 else numBlocks,
                    blockSize, blocks + [open], means + [mean], [])
    }

    method ExtendOpen(ghost value: real, ghost mean: real)
      requires 0 < numBlocks == values.Length && blockIdx < numBlocks && idx < blockSize
      requires Added(values[..], blockIdx, idx, validBlocks, blockSize, blocks, means, open, mean, value)
      modifies this`idx, this`open
      ensures open == old(open) + [value] && History() == old(History()) + [value]
      ensures idx == if old(idx) + 1 < blockSize then old(idx) + 1 else 0
      ensures if idx == 0 then AtBlockEnd(mean) else Valid()
    {
      ConcatAssociates(Flatten(blocks), open, [value]);
      idx := After(idx, blockSize);
      open := open + [value];
    }

    method CloseBlock(ghost mean: real)
      requires AtBlockEnd(mean)
      modifies this`blocks, this`means, this`open, this`blockIdx, this`validBlocks
      ensures Valid() && History() == old(History()) && blocks == old(blocks) + [old(open)] && open == []
    {
      FlattenOneMore(blocks, open);
      blocks, means, open := blocks + [open], means + [mean], [];
      blockIdx := After(blockIdx, numBlocks);
      validBlocks := if validBlocks + 1 < numBlocks then validBlocks + 1 else numBlocks;
    }

    /** The completed blocks that count. */
    ghost function Latest(): seq<seq<real>>
      requires Valid()
      reads this, values
    {
      blocks[|blocks| - Counting(|blocks|, numBlocks)..]
    }

    /**
     The valid mean is the mean of all the samples of the latest completed blocks, and the current one that of their
     means and the open block's. Each comes with the variance of the block means it is from, the square of the standard
     deviation; none stands for not-a-number.
     */
    method Get()
      returns (validMean: Option<real>, validVar: Option<real>, currentMean: Option<real>, currentVar: Option<real>)
      requires Valid()
      ensures forall b :: b in Latest() ==> b != []
      ensures if Latest() == [] then validMean == None && validVar == None
              else
                && Flatten(Latest()) != [] && validMean == Some(Mean(Flatten(Latest())))
                && validVar == Some(Variance(MeansOf(Latest())))
      ensures if open == [] then currentMean == validMean && currentVar == validVar
              else
                && currentMean == Some(Mean(MeansOf(Latest()) + [Mean(open)]))
                && currentVar == Some(Variance(MeansOf(Latest()) + [Mean(open)]))
    {
      var picked := PickValid();
      LatestMeans(picked);
      validMean, validVar, currentMean, currentVar := None, None, None, None;
      if |picked| > 0 {
        validMean, validVar := Some(Mean(picked)), Some(Variance(picked));
      }
      if idx > 0 {
        picked := picked + [values[blockIdx]];
      }
      if |picked| > 0 {
        currentMean, currentVar := Some(Mean(picked)), Some(Variance(picked));
      }
    }

    /** The open slot holds the mean of the samples so far in the open block. */
    lemma OpenSlotIsMean()
      requires Valid() && open != []
      ensures values[blockIdx] == Mean(open)
    {
      MeanByTimes(values[blockIdx], open);
    }

    lemma LatestMeans(picked: seq<real>)
      requires Valid() && blockIdx <= validBlocks && picked == Picked(values[..], blockIdx, validBlocks)
      ensures |picked| == |Latest()| && forall b :: b in Latest() ==> b != []
      ensures picked != [] ==> Flatten(Latest()) != [] && Mean(picked) == Mean(Flatten(Latest()))
      ensures picked != [] ==> Variance(picked) == Variance(MeansOf(Latest()))
      ensures open != [] ==>
        && Mean(picked + [values[blockIdx]]) == Mean(MeansOf(Latest()) + [Mean(open)])
        && Variance(picked + [values[blockIdx]]) == Variance(MeansOf(Latest()) + [Mean(open)])
    {
      var a, b := PickedAreLatest(values[..], blockIdx, means, validBlocks);
      var from := |blocks| - Counting(|blocks|, numBlocks);
      MeansOfSuffix(means, blocks, blockSize, from);
      MeansAreMeans(a + b, Latest(), blockSize);
      if picked != [] {
        SameFigures(a, b, []);
        assert b + a + [] == b + a && a + b + [] == a + b;
        MeanOfMeans(a + b, Latest(), blockSize);
      }
      if open != [] {
        SameFigures(a, b, [values[blockIdx]]);
        MeanByTimes(values[blockIdx], open);
      }
    }

    method PickValid() returns (picked: seq<real>)
      requires Valid()
      ensures blockIdx <= validBlocks && picked == Picked(values[..], blockIdx, validBlocks)
    {
      picked := [];
      var i := 0;
      while i < validBlocks
        invariant i <= validBlocks
        invariant picked == if blockIdx < i then values[..blockIdx] + values[blockIdx + 1..i] else values[..i]
      {
        if i != blockIdx {
          picked := picked + [values[i]];
        }
        i := i + 1;
      }
    }

    method UpdateSlot(value: real) returns (mean: real)
      requires Valid()
      modifies values
      ensures blockIdx < numBlocks && idx < blockSize
      ensures Added(values[..], blockIdx, idx, validBlocks, blockSize, blocks, means, open, mean, value)
    {
      ghost var slots := values[..];
      var was := values[blockIdx];
      mean := (idx as real * was + value) / (idx + 1) as real;
      RunningMean(idx, was, Sum(open), value);
      assert mean == Updated(idx, was, value);
      values[blockIdx] := mean;
      assert values[..] == slots[blockIdx := mean];
      SampleAdded(slots, blockIdx, idx, validBlocks, blockSize, blocks, means, open, mean, value);
    }
  }

  // ----- Reading the means -----

  lemma {:induction false} TimesAdds(a: real, b: real, n: nat)
    ensures Times(a + b, n) == Times(a, n) + Times(b, n)
  {
    if n > 0 {
      TimesAdds(a, b, n - 1);
    }
  }

  /** The sum of the means, times the block size, is the sum of all samples. */
  lemma {:induction false} SumOfMeans(means: seq<real>, blocks: seq<seq<real>>, size: nat)
    requires Means(means, blocks, size)
    ensures Times(Sum(means), size) == Sum(Flatten(blocks))
  {
    if means == [] {
      TimesIsProduct(0.0, size);
    } else {
      var n := |means| - 1;
      SumOfMeans(means[..n], blocks[..n], size);
      TimesAdds(Sum(means[..n]), means[n], size);
      SumOneMore(blocks[..n], blocks[n]);
      assert blocks[..n] + [blocks[n]] == blocks;
    }
  }

  lemma {:induction false} MeanOfMeans(means: seq<real>, blocks: seq<seq<real>>, size: nat)
    requires Means(means, blocks, size) && means != [] && 0 < size
    ensures Flatten(blocks) != [] && Mean(means) == Mean(Flatten(blocks))
  {
    SumOfMeans(means, blocks, size);
    FlattenLength(blocks, size);
    SameRatio(Sum(means), |means|, size, Sum(Flatten(blocks)), |Flatten(blocks)|);
  }

  /** The samples of the latest blocks are the last ones of the completed history. */
  lemma {:induction false} LatestSamples(blocks: seq<seq<real>>, size: nat, from: nat)
    requires from <= |blocks| && forall b :: b in blocks ==> |b| == size
    ensures from * size <= |Flatten(blocks)| && Flatten(blocks[from..]) == Flatten(blocks)[from * size..]
  {
    assert blocks == blocks[..from] + blocks[from..];
    FlattenConcat(blocks[..from], blocks[from..]);
    FlattenLength(blocks[..from], size);
  }

  lemma {:induction false} SameRatio(sum: real, n: nat, size: nat, total: real, length: nat)
    requires 0 < n && 0 < size && total == Times(sum, size) && length == n * size
    ensures 0 < length && sum / n as real == total / length as real
  {
    TimesIsProduct(sum, size);
    SameQuotient(sum, n as real, size as real);
    assert length as real == n as real * size as real;
  }

  lemma SameQuotient(sum: real, a: real, b: real)
    requires a > 0.0 && b > 0.0
    ensures a * b > 0.0 && sum / a == (sum * b) / (a * b)
  {
    var q := sum / a;
    assert sum * b == q * (a * b);
  }

  // ----- Figures do not depend on the order of the slots -----

  function SquaredDeviations(s: seq<real>, mean: real): seq<real> {
    seq(|s|, i requires 0 <= i < |s| => Prod(s[i] - mean, s[i] - mean))
  }

  function Variance(s: seq<real>): real
    requires s != []
  {
    Sum(SquaredDeviations(s, Mean(s))) / |s| as real
  }

  /** Squared deviations from `mean` add up to this, by the sum of squares, the sum and the number of values. */
  predicate AddUp(total: real, squares: real, sum: real, n: nat, mean: real) {
    total == squares - 2.0 * (mean * sum) + n as real * (mean * mean)
  }

  lemma {:induction false} DeviationsAddUp(s: seq<real>, mean: real)
    ensures AddUp(Sum(SquaredDeviations(s, mean)), Sum(SquaredDeviations(s, 0.0)), Sum(s), |s|, mean)
  {
    if s != [] {
      var init, last := s[..|s| - 1], s[|s| - 1];
      DeviationsAddUp(init, mean);
      LastDeviation(s, mean);
      LastDeviation(s, 0.0);
      AddUpMore(Sum(SquaredDeviations(init, mean)), Sum(SquaredDeviations(init, 0.0)), Sum(init), |init|, mean, last,
                Sum(SquaredDeviations(s, mean)), Sum(SquaredDeviations(s, 0.0)), Sum(s), |s|);
    }
  }

  lemma {:induction false} LastDeviation(s: seq<real>, mean: real)
    requires s != []
    ensures var init, last := s[..|s| - 1], s[|s| - 1];
            Sum(SquaredDeviations(s, mean)) == Sum(SquaredDeviations(init, mean)) + Prod(last - mean, last - mean)
  {
    assert SquaredDeviations(s, mean)[..|s| - 1] == SquaredDeviations(s[..|s| - 1], mean);
  }

  lemma AddUpMore(
    total: real, squares: real, sum: real, n: nat, mean: real, x: real,
    total': real, squares': real, sum': real, n': nat)
    requires AddUp(total, squares, sum, n, mean)
    requires total' == total + Prod(x - mean, x - mean) && squares' == squares + Prod(x - 0.0, x - 0.0)
    requires sum' == sum + x && n' == n + 1
    ensures AddUp(total', squares', sum', n', mean)
  {
    assert mean * sum' == mean * sum + mean * x;
    assert n' as real * (mean * mean) == n as real * (mean * mean) + mean * mean;
  }

  /** The variance is the mean of the squares less the square of the mean. */
  lemma VarianceByMoments(s: seq<real>)
    requires s != []
    ensures Variance(s) == Mean(SquaredDeviations(s, 0.0)) - Prod(Mean(s), Mean(s))
  {
    DeviationsAddUp(s, Mean(s));
    MomentsDivided(Sum(SquaredDeviations(s, Mean(s))), Sum(SquaredDeviations(s, 0.0)), Sum(s), |s|, Mean(s));
  }

  lemma MomentsDivided(total: real, squares: real, sum: real, n: nat, mean: real)
    requires n > 0 && mean == sum / n as real && AddUp(total, squares, sum, n, mean)
    ensures total / n as real == squares / n as real - Prod(mean, mean)
  {
    assert mean * n as real == sum;
    assert mean * sum == n as real * (mean * mean);
    assert total == squares - n as real * (mean * mean);
  }

  lemma {:induction false} SumSwaps(a: seq<real>, b: seq<real>, more: seq<real>)
    ensures Sum(b + a + more) == Sum(a + b + more)
  {
    SumConcat(b + a, more);
    SumConcat(b, a);
    SumConcat(a + b, more);
    SumConcat(a, b);
  }

  lemma DeviationsConcat(a: seq<real>, b: seq<real>, mean: real)
    ensures SquaredDeviations(a + b, mean) == SquaredDeviations(a, mean) + SquaredDeviations(b, mean)
  {
  }

  /** Two stretches of slots may change places: mean and variance stay. */
  lemma SameFigures(a: seq<real>, b: seq<real>, more: seq<real>)
    requires a + b + more != []
    ensures b + a + more != [] && Mean(b + a + more) == Mean(a + b + more)
    ensures Variance(b + a + more) == Variance(a + b + more)
  {
    SumSwaps(a, b, more);
    var m := Mean(a + b + more);
    assert |b + a + more| == |a + b + more| && Mean(b + a + more) == m;
    DeviationsConcat(b + a, more, m);
    DeviationsConcat(b, a, m);
    DeviationsConcat(a + b, more, m);
    DeviationsConcat(a, b, m);
    SumSwaps(SquaredDeviations(a, m), SquaredDeviations(b, m), SquaredDeviations(more, m));
  }

  /** Every valid slot but the open one, in the order of the ring. */
  function Picked(slots: seq<real>, at: nat, valid: nat): seq<real>
    requires at <= valid <= |slots|
  {
    if at < valid then slots[..at] + slots[at + 1..valid] else slots[..valid]
  }

  /** How many completed blocks count: all of them, until the ring is full and the open slot hides one. */
  function Counting(completed: nat, numBlocks: nat): nat
    requires 0 < numBlocks
  {
    if completed < numBlocks then completed else numBlocks - 1
  }

  /** The picked slots are the latest means, in two stretches that have changed places once the ring has filled. */
  lemma PickedAreLatest(slots: seq<real>, at: nat, means: seq<real>, valid: nat)
    returns (a: seq<real>, b: seq<real>)
    requires Ring(slots, at, means) && valid == (if |means| < |slots| then |means| else |slots|)
    ensures at <= valid && Picked(slots, at, valid) == b + a
    ensures means[|means| - Counting(|means|, |slots|)..] == a + b
  {
    var c, n := |means|, |slots|;
    if c < n {
      a, b := means, [];
      assert slots[..valid] == means;
    } else {
      a, b := means[c - n + 1..c - at], means[c - at..];
      assert slots[..at] == b;
      assert slots[at + 1..valid] == a;
    }
  }

  lemma MeansOfSuffix(means: seq<real>, blocks: seq<seq<real>>, size: nat, from: nat)
    requires Means(means, blocks, size) && from <= |means|
    ensures Means(means[from..], blocks[from..], size)
  {
  }

  lemma {:induction false} MeanByTimes(mean: real, s: seq<real>)
    requires s != [] && IsMean(mean, |s|, Sum(s))
    ensures mean == Mean(s)
  {
    TimesIsProduct(mean, |s|);
  }

  function MeansOf(blocks: seq<seq<real>>): seq<real>
    requires forall b :: b in blocks ==> b != []
  {
    seq(|blocks|, j requires 0 <= j < |blocks| => assert blocks[j] in blocks; Mean(blocks[j]))
  }

  lemma MeansAreMeans(means: seq<real>, blocks: seq<seq<real>>, size: nat)
    requires Means(means, blocks, size) && 0 < size
    ensures forall b :: b in blocks ==> b != []
    ensures means == MeansOf(blocks)
  {
    forall j | 0 <= j < |means|
      ensures means[j] == Mean(blocks[j])
    {
      MeanByTimes(means[j], blocks[j]);
    }
  }

  lemma Restored(numBlocks: nat, size: nat, valid: nat, x: real)
    requires 0 < numBlocks && 0 < size && valid <= numBlocks
    ensures Summarizes(seq(numBlocks, _ => x), valid % numBlocks, 0, valid, size,
                       seq(valid, _ => seq(size, _ => x)), seq(valid, _ => x), [])
  {
    RestoredMeans(size, valid, x);
    RestoredRing(numBlocks, valid, x);
  }

  lemma RestoredMeans(size: nat, valid: nat, x: real)
    ensures Means(seq(valid, _ => x), seq(valid, _ => seq(size, _ => x)), size)
  {
    SumOfSame(size, x);
    var blocks := seq(valid, _ => seq(size, _ => x));
    assert forall j :: 0 <= j < valid ==> blocks[j] == seq(size, _ => x);
  }

  lemma RestoredRing(numBlocks: nat, valid: nat, x: real)
    requires 0 < numBlocks && valid <= numBlocks
    ensures Ring(seq(numBlocks, _ => x), valid % numBlocks, seq(valid, _ => x))
  {
    assert valid % numBlocks == if valid < numBlocks then valid else 0;
  }

  lemma {:induction false} SumOfSame(n: nat, x: real)
    ensures IsMean(x, n, Sum(seq(n, _ => x)))
  {
    if n > 0 {
      assert seq(n, _ => x)[..n - 1] == seq(n - 1, _ => x);
      SumOfSame(n - 1, x);
    }
  }
}
