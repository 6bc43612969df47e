/** The utilisation sample of a GPU: the sum over the processes the driver reported. */
module GpuSampling {
  import Feedback
  import IntWidth

  const UINT32: nat := 0x1_0000_0000
  const MAX_PIDS: nat := 1024

  /** One process record; the driver leaves percentages above 100 in records it could not fill. */
  datatype ProcessSample = ProcessSample(timeStamp: nat, smUtil: nat, encUtil: nat, decUtil: nat)

  function ValidPercent(x: nat): nat {
    if x <= 100 then x else 0
  }

  function CodecShare(codec: nat): nat {
    codec * 85 / 100
  }

  function Load(s: ProcessSample): nat {
    ValidPercent(s.smUtil) + CodecShare(ValidPercent(s.encUtil) + ValidPercent(s.decUtil))
  }

  /** Total load of the samples taken no earlier than `checkTime`. */
  function TotalLoad(samples: seq<ProcessSample>, checkTime: nat): nat {
    if samples == [] then 0
    else
      var last := samples[|samples| - 1];
      TotalLoad(samples[..|samples| - 1], checkTime) + if last.timeStamp >= checkTime then Load(last) else 0
  }

  lemma {:induction false} TotalLoadBound(samples: seq<ProcessSample>, checkTime: nat)
    ensures TotalLoad(samples, checkTime) <= 270 * |samples|
  {
    if samples != [] {
      TotalLoadBound(samples[..|samples| - 1], checkTime);
    }
  }

  // ----- what a load is

  predicate Percentages(s: ProcessSample) {
    s.smUtil <= 100 && s.encUtil <= 100 && s.decUtil <= 100
  }

  /** A record in the window adds its compute percentage and 85 percent of its codec percentages, rounded down. */
  lemma RecordLoad(s: ProcessSample, checkTime: nat)
    requires s.timeStamp >= checkTime && Percentages(s)
    ensures var codec := TotalLoad([s], checkTime) - s.smUtil;
            100 * codec <= 85 * (s.encUtil + s.decUtil) < 100 * codec + 100
  {
    assert [s][..0] == [];
  }

  /** A percentage the driver could not fill adds nothing, nor does a record from before the window. */
  lemma UnfilledAddsNothing(s: ProcessSample, checkTime: nat)
    ensures s.timeStamp < checkTime ==> TotalLoad([s], checkTime) == 0
    ensures s.smUtil > 100 ==> TotalLoad([s], checkTime) == TotalLoad([s.(smUtil := 0)], checkTime)
    ensures s.encUtil > 100 ==> TotalLoad([s], checkTime) == TotalLoad([s.(encUtil := 0)], checkTime)
    ensures s.decUtil > 100 ==> TotalLoad([s], checkTime) == TotalLoad([s.(decUtil := 0)], checkTime)
  {
    SingleLoad(s, checkTime);
    SingleLoad(s.(smUtil := 0), checkTime);
    SingleLoad(s.(encUtil := 0), checkTime);
    SingleLoad(s.(decUtil := 0), checkTime);
  }

  lemma SingleLoad(s: ProcessSample, checkTime: nat)
    ensures TotalLoad([s], checkTime) == if s.timeStamp >= checkTime then Load(s) else 0
  {
    assert [s][..0] == [];
  }

  lemma {:induction false} LoadsAddUp(a: seq<ProcessSample>, b: seq<ProcessSample>, checkTime: nat)
    ensures TotalLoad(a + b, checkTime) == TotalLoad(a, checkTime) + TotalLoad(b, checkTime)
  {
    if b == [] {
      assert a + b == a;
    } else {
      hide Load;
      assert (a + b)[..|a + b| - 1] == a + b[..|b| - 1];
      LoadsAddUp(a, b[..|b| - 1], checkTime);
    }
  }

  /** The bound of 270 a record is attained. */
  lemma {:induction false} FullLoad(n: nat, checkTime: nat)
    ensures TotalLoad(seq(n, _ => ProcessSample(checkTime, 100, 100, 100)), checkTime) == 270 * n
  {
    if n > 0 {
      var full := seq(n, _ => ProcessSample(checkTime, 100, 100, 100));
      assert full[..n - 1] == seq(n - 1, _ => ProcessSample(checkTime, 100, 100, 100));
      FullLoad(n - 1, checkTime);
    }
  }

  lemma AddWrapped(a: nat, b: nat, c: nat)
    ensures ((a % UINT32 + b) % UINT32 + c) % UINT32 == (a + (b + c)) % UINT32
  {
  }

  /** One iteration: two additions on a 32-bit unsigned counter, for a record taken no earlier than `checkTime`. */
  method AddSample(before: nat, s: ProcessSample, checkTime: nat, ghost total: nat) returns (used: nat)
    requires before == total % UINT32
    ensures used == (total + if s.timeStamp >= checkTime then Load(s) else 0) % UINT32
  {
    used := before;
    if s.timeStamp >= checkTime {
      var sm := ValidPercent(s.smUtil);
      var codec := CodecShare(ValidPercent(s.encUtil) + ValidPercent(s.decUtil));
      AddWrapped(total, sm, codec);
      used := (used + sm) % UINT32;
      used := (used + codec) % UINT32;
    }
  }

  /**
   * The accumulation loop. The counter can wrap only beyond 15 million
   * records; a full sample buffer is far too small for it.
   */
  method GetGpuUtilisation(samples: array<ProcessSample>, checkTime: nat) returns (used: nat)
    ensures used == TotalLoad(samples[..], checkTime) % UINT32
    ensures 270 * samples.Length < 4294967296 ==> used == TotalLoad(samples[..], checkTime) <= 270 * samples.Length
    ensures samples.Length <= MAX_PIDS ==> used == TotalLoad(samples[..], checkTime)
  {
    hide Load;
    used := 0;
    for i := 0 to samples.Length
      invariant used == TotalLoad(samples[..i], checkTime) % UINT32
    {
      assert samples[..i + 1][..i] == samples[..i];
      used := AddSample(used, samples[i], checkTime, TotalLoad(samples[..i], checkTime));
    }
    assert samples[..samples.Length] == samples[..];
    TotalLoadBound(samples[..], checkTime);
  }

  /**
   * From the process records to the new share, the 32-bit computation is the
   * mathematical one whenever the closed-form range condition holds for the
   * number of records.
   */
  lemma SampledStepAgrees(d: Feedback.Device, limit: nat, samples: seq<ProcessSample>, checkTime: nat, share: nat)
    requires Feedback.Units(d) >= 1 && Feedback.ThreadsPerUnit(d) >= 1
    requires IntWidth.RangeCondition(d, limit, 270 * |samples|)
    requires share <= Feedback.TotalCores(d)
    ensures IntWidth.Delta32(d, limit, TotalLoad(samples, checkTime), share)
         == Feedback.Delta(d, limit, TotalLoad(samples, checkTime), share)
  {
    var used := TotalLoad(samples, checkTime);
    TotalLoadBound(samples, checkTime);
    IntWidth.RangeConditionSuffices(d, limit, 270 * |samples|, used, share);
    IntWidth.ExactStepAgrees(d, limit, used, share);
  }
}
