/** The moving averages of durations, kept as whole milliseconds (updateMovingAvg in
    backend/vod/processing.go): a new sample counts for a fifth. */
module MovingAverage {
  function Distance(a: int, b: int): nat {
    if a <= b then b - a else a - b
  }

  /** The integer nearest to a fifth of x; no fifth lies half way between two integers. */
  function Fifth(x: int): (r: int)
    ensures Distance(5 * r, x) <= 2
  {
    (x + 2) / 5
  }

  function Step(average: int, sample: int): int {
    Fifth(sample + 4 * average)
  }

  /** The average after all the samples; the first one is taken as it is. */
  function After(samples: seq<int>): int
    requires samples != []
  {
    if |samples| == 1 then samples[0] else Step(After(samples[..|samples| - 1]), samples[|samples| - 1])
  }

  /** The new sample counts for a fifth: a step goes a fifth of the way, up to rounding. */
  lemma StepGoesAFifth(average: int, sample: int)
    ensures Distance(5 * (Step(average, sample) - average), sample - average) <= 2
  {
  }

  lemma AfterOneMore(samples: seq<int>, sample: int)
    ensures After([sample]) == sample
    ensures samples != [] ==> After(samples + [sample]) == Step(After(samples), sample)
  {
    assert (samples + [sample])[..|samples|] == samples;
  }

  /** The average never leaves the range of the samples seen. */
  lemma {:induction false} StaysAmongSamples(samples: seq<int>, lo: int, hi: int)
    requires samples != [] && forall i | 0 <= i < |samples| :: lo <= samples[i] <= hi
    ensures lo <= After(samples) <= hi
  {
    if |samples| > 1 {
      StaysAmongSamples(samples[..|samples| - 1], lo, hi);
    }
  }

  /** One more equal sample brings the average closer exactly if it is 3 or more away, and leaves it otherwise. */
  lemma StepsCloserIff(average: int, sample: int)
    ensures Distance(Step(average, sample), sample) < Distance(average, sample) <==> Distance(average, sample) >= 3
    ensures Step(average, sample) == average <==> Distance(average, sample) <= 2
  {
  }

  function Again(average: int, sample: int, n: nat): int {
    if n == 0 then average else Step(Again(average, sample, n - 1), sample)
  }

  /** Under a constant sample the average ends within 2 of it and then stays where it is, but it need not get
      any closer. */
  lemma {:induction false} Settles(average: int, sample: int, n: nat)
    ensures n + 2 <= Distance(average, sample) ==>
      Distance(Again(average, sample, n), sample) <= Distance(average, sample) - n
    ensures n + 2 >= Distance(average, sample) ==> Distance(Again(average, sample, n), sample) <= 2
    ensures Distance(average, sample) <= 2 ==> Again(average, sample, n) == average
  {
    if n > 0 {
      Settles(average, sample, n - 1);
      StepsCloserIff(Again(average, sample, n - 1), sample);
    }
  }

  class Averages {
    var kv: map<string, int>

    /** updateMovingAvg. */
    method Update(key: string, sample: int)
      modifies this
      ensures key in old(kv) ==> kv == old(kv)[key := Step(old(kv)[key], sample)]
      ensures key !in old(kv) ==> kv == old(kv)[key := After([sample])]
    {
      if key !in kv {
        kv := kv[key := sample];
        return;
      }
      kv := kv[key := Fifth(sample + 4 * kv[key])];
    }
  }
}
