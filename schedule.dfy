/** The fixed order of filter passes run by one blur callback (imgui_blur.cpp:381-389).
    Level 0 of the chain is both the first input size and the final output. */
module PassSchedule {

  /** Where a pass reads from: the captured screen, or the read view of a chain level. */
  datatype Source = Screen | Level(index: nat)

  /** The two pixel shaders. Their HLSL bodies happen to be identical 5-tap filters. */
  datatype Filter = Downsample | Upsample

  /** One render_shader_pass call: the destination level, the input and the shader. */
  datatype Pass = Pass(dest: nat, source: Source, filter: Filter)

  /** The downsample loop `for (i = from; i < to; ++i)`: level i into level i + 1. */
  function DownPasses(from: nat, to: nat): seq<Pass>
    decreases to - from
  {
    if from >= to then [] else [Pass(from + 1, Level(from), Downsample)] + DownPasses(from + 1, to)
  }

  /** The upsample loop `for (i = top; i > 1; --i)`: level i into level i - 1. */
  function UpPasses(top: nat): seq<Pass>
  {
    if top <= 1 then [] else [Pass(top - 1, Level(top), Upsample)] + UpPasses(top - 1)
  }

  /** The passes of one callback with the given iteration count, in order: the screen into
      level 1, the downsample loop, the upsample loop, and level 1 into level 0. */
  function Schedule(iterations: nat): seq<Pass>
  {
    [Pass(1, Screen, Downsample)] + DownPasses(1, iterations) + UpPasses(iterations)
      + [Pass(0, Level(1), Upsample)]
  }

  /** An independent description of pass k of the schedule for n >= 1 iterations:
      passes 0 .. n-1 walk down from the screen to level n, passes n .. 2n-1 walk back up
      from level n to level 0. */
  function PassAt(n: nat, k: nat): Pass
    requires 1 <= n && k < 2 * n
  {
    if k < n then Pass(k + 1, if k == 0 then Screen else Level(k), Downsample)
    else Pass(2 * n - 1 - k, Level(2 * n - k), Upsample)
  }

  lemma {:induction false} DownPassesAt(from: nat, to: nat)
    ensures |DownPasses(from, to)| == if from <= to then to - from else 0
    ensures forall j :: 0 <= j < |DownPasses(from, to)| ==>
                          DownPasses(from, to)[j] == Pass(from + j + 1, Level(from + j), Downsample)
    decreases if from <= to then to - from else 0
  {
    if from < to {
      DownPassesAt(from + 1, to);
    }
  }

  lemma {:induction false} UpPassesAt(top: nat)
    ensures |UpPasses(top)| == if top >= 1 then top - 1 else 0
    ensures forall j :: 0 <= j < |UpPasses(top)| ==>
                          UpPasses(top)[j] == Pass(top - 1 - j, Level(top - j), Upsample)
  {
    if top > 1 {
      UpPassesAt(top - 1);
    }
  }

  /** For n >= 1 the schedule has exactly 2n passes and pass k is PassAt(n, k). */
  lemma ScheduleAt(n: nat)
    requires n >= 1
    ensures |Schedule(n)| == 2 * n
    ensures forall k :: 0 <= k < 2 * n ==> Schedule(n)[k] == PassAt(n, k)
  {
    DownPassesAt(1, n);
    UpPassesAt(n);
    var s := Schedule(n);
    var d, u := DownPasses(1, n), UpPasses(n);
    assert s == [Pass(1, Screen, Downsample)] + d + u + [Pass(0, Level(1), Upsample)];
    forall k | 0 <= k < 2 * n
      ensures s[k] == PassAt(n, k)
    {
      if k == 0 {
      } else if k < n {
        assert s[k] == d[k - 1];
      } else if k < 2 * n - 1 {
        assert s[k] == u[k - n];
      } else {
        assert s[k] == Pass(0, Level(1), Upsample);
      }
    }
  }

  /** One pass of the schedule, as the reference definition gives it. */
  lemma PassOf(n: nat, k: nat)
    requires 1 <= n && k < 2 * n
    ensures |Schedule(n)| == 2 * n && Schedule(n)[k] == PassAt(n, k)
  {
    ScheduleAt(n);
  }

  /** The first n passes downsample and the last n upsample, so every downsample precedes
      every upsample. */
  lemma DownsamplesThenUpsamples(n: nat)
    requires n >= 1
    ensures |Schedule(n)| == 2 * n
    ensures forall k :: 0 <= k < n ==> Schedule(n)[k].filter == Downsample
    ensures forall k :: n <= k < 2 * n ==> Schedule(n)[k].filter == Upsample
    ensures forall j, k ::
              (0 <= j < |Schedule(n)| && 0 <= k < |Schedule(n)| &&
               Schedule(n)[j].filter == Upsample && Schedule(n)[k].filter == Downsample) ==> k < j
  {
    ScheduleAt(n);
  }

  /** Data flow: the first pass reads the screen, every later pass reads the level the pass
      before it wrote, no pass reads the level it writes, and the last pass writes level 0. */
  lemma ScheduleDataFlow(n: nat)
    requires n >= 1
    ensures |Schedule(n)| == 2 * n
    ensures Schedule(n)[0].source == Screen
    ensures forall k :: 0 < k < |Schedule(n)| ==> Schedule(n)[k].source == Level(Schedule(n)[k - 1].dest)
    ensures forall k :: 0 <= k < |Schedule(n)| ==> Schedule(n)[k].source != Level(Schedule(n)[k].dest)
    ensures Schedule(n)[2 * n - 1].dest == 0
  {
    ScheduleAt(n);
    var s := Schedule(n);
    forall k | 0 < k < 2 * n
      ensures s[k].source == Level(s[k - 1].dest)
    {
      assert s[k] == PassAt(n, k) && s[k - 1] == PassAt(n, k - 1);
    }
  }

  /** Every level the passes write or read lies in 0 .. top. */
  predicate WithinLevels(passes: seq<Pass>, top: nat)
  {
    forall k :: 0 <= k < |passes| ==>
      passes[k].dest <= top && (passes[k].source.Level? ==> passes[k].source.index <= top)
  }

  /** The schedule stays inside a chain of iterations + 1 levels exactly when iterations >= 1:
      with 0 iterations the first pass still writes level 1. */
  lemma ScheduleWithinChainIff(n: nat)
    ensures WithinLevels(Schedule(n), n) <==> n >= 1
  {
    if n >= 1 {
      ScheduleAt(n);
    } else {
      assert Schedule(n)[0].dest == 1;
    }
  }

  /** Every level 0 .. n is written by some pass: the whole chain takes part. */
  lemma ScheduleWritesEveryLevel(n: nat, level: nat)
    requires 1 <= n && level <= n
    ensures exists k :: 0 <= k < |Schedule(n)| && Schedule(n)[k].dest == level
  {
    ScheduleAt(n);
    var k := if level == 0 then 2 * n - 1 else level - 1;
    assert Schedule(n)[k] == PassAt(n, k);
  }
}
