/**
 * The stats plugin (`plugins/stats/main.rs`): the launch counter kept per instance and
 * the text a playtime in minutes is shown as.
 */
module Stats {
  import Text

  const U32_LIMIT: nat := 0x1_0000_0000
  const U64_LIMIT: nat := 0x1_0000_0000_0000_0000

  type U32 = n: nat | n < U32_LIMIT
  type U64 = n: nat | n < U64_LIMIT

  const MINUTES_PER_HOUR: nat := 60
  const MINUTES_PER_DAY: nat := 1440

  // ---------------------------------------------------------------------------
  // format_time

  /** `format_time` as the source writes it: the days branch divides by 3600. */
  function FormatTimeAsWritten(time: U64): (s: string)
    ensures time >= 3600 ==> s == Text.NatToString(time / 3600) + " days"
    ensures time < 3600 ==> s == FormatTime(time)
  {
    if time < 60 then Text.NatToString(time) + " minutes"
    else if time < 3600 then Text.NatToString(time / 60) + " hours"
    else Text.NatToString(time / 3600) + " days"
  }

  /** 3600 minutes are two and a half days, but the source shows them as "1 days". */
  lemma FormatTimeAsWrittenMiscountsDays()
    ensures FormatTimeAsWritten(3600) == "1 days"
    ensures 2 * MINUTES_PER_DAY <= 3600
  {
    assert Text.NatToString(1) == "1";
  }

  /** `format_time` with the days branch counting whole days, 1440 minutes each. */
  function FormatTime(time: U64): (s: string)
  {
    if time < 60 then Text.NatToString(time) + " minutes"
    else if time < 3600 then Text.NatToString(time / MINUTES_PER_HOUR) + " hours"
    else Text.NatToString(time / MINUTES_PER_DAY) + " days"
  }

  /**
   * Each branch shows the number of whole units in the playtime: the minutes themselves
   * under an hour, whole hours under 3600 minutes, and whole days from there on.
   */
  lemma FormatTimeCountsWholeUnits(time: U64)
    ensures time < 60 ==> FormatTime(time) == Text.NatToString(time) + " minutes"
    ensures 60 <= time < 3600 ==> exists h: nat :: (h * MINUTES_PER_HOUR <= time < (h + 1) * MINUTES_PER_HOUR &&
                                                      FormatTime(time) == Text.NatToString(h) + " hours")
    ensures time >= 3600 ==> exists d: nat :: (d * MINUTES_PER_DAY <= time < (d + 1) * MINUTES_PER_DAY &&
                                                 FormatTime(time) == Text.NatToString(d) + " days")
  {
    if 60 <= time < 3600 {
      var h := time / MINUTES_PER_HOUR;
      assert time == h * MINUTES_PER_HOUR + time % MINUTES_PER_HOUR;
      assert FormatTime(time) == Text.NatToString(h) + " hours";
    } else if time >= 3600 {
      var d := time / MINUTES_PER_DAY;
      assert time == d * MINUTES_PER_DAY + time % MINUTES_PER_DAY;
      assert FormatTime(time) == Text.NatToString(d) + " days";
    }
  }

  /** An hours count lies between 1 and 59, and a days count is at least 2. */
  lemma FormatTimeUnits(time: U64)
    ensures 60 <= time < 3600 ==> 1 <= time / MINUTES_PER_HOUR < 60
    ensures time >= 3600 ==> time / MINUTES_PER_DAY >= 2
  {
  }

  // ---------------------------------------------------------------------------
  // The launch counter

  /** `InstanceStats`; its default is zero playtime and zero launches. */
  datatype InstanceStats = InstanceStats(playtime: U64, launches: U32)

  const DEFAULT_INSTANCE_STATS := InstanceStats(0, 0)

  /** A `u32` increment, which wraps around in a release build. */
  function IncrementU32(n: U32): (r: U32)
    ensures n + 1 < U32_LIMIT ==> r == n + 1
    ensures n + 1 == U32_LIMIT ==> r == 0
  {
    (n + 1) % U32_LIMIT
  }

  /** The stats of every instance after one more launch of `inst`. */
  function Launched(instances: map<string, InstanceStats>, inst: string): (r: map<string, InstanceStats>)
    ensures r.Keys == instances.Keys + {inst}
    ensures forall other :: other in instances && other != inst ==> r[other] == instances[other]
    ensures inst !in instances ==> r[inst] == InstanceStats(0, 1)
    ensures inst in instances ==> r[inst].playtime == instances[inst].playtime
    ensures inst in instances ==> r[inst].launches == IncrementU32(instances[inst].launches)
  {
    var before := if inst in instances then instances[inst] else DEFAULT_INSTANCE_STATS;
    instances[inst := before.(launches := IncrementU32(before.launches))]
  }

  /** Two launches of different instances can be recorded in either order. */
  lemma LaunchesCommute(instances: map<string, InstanceStats>, a: string, b: string)
    ensures Launched(Launched(instances, a), b) == Launched(Launched(instances, b), a)
  {
    if a != b {
      var l := Launched(Launched(instances, a), b);
      var r := Launched(Launched(instances, b), a);
      assert l.Keys == r.Keys;
      forall k | k in l ensures l[k] == r[k] {
      }
    }
  }

  /** `Stats`: the stored stats, one entry per instance that has been launched. */
  class StatsFile {
    var instances: map<string, InstanceStats>

    /** `Stats::default`. */
    constructor()
      ensures instances == map[]
    {
      instances := map[];
    }

    /** The `on_instance_launch` hook: `entry(inst).or_default().launches += 1`. */
    method RecordLaunch(inst: string)
      modifies this
      ensures instances == Launched(old(instances), inst)
    {
      var entry := if inst in instances then instances[inst] else DEFAULT_INSTANCE_STATS;
      entry := entry.(launches := IncrementU32(entry.launches));
      instances := instances[inst := entry];
    }
  }
}
