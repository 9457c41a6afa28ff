/** One iteration of the pwm-fancontrol daemon's control loop
    (app/pwm-fancontrol.c): read every temperature file, take the hottest,
    map it linearly onto a PWM duty, clamp, and write the duty to every PWM
    file when it differs from the last one written. */
module Thermal {
  import opened CTypes

  /** Temperature (millidegrees) mapped to duty 0. */
  const TEMP_OFFSET: int := 46850
  /** Millidegrees per duty step. */
  const TEMP_SLOPE: int := 130
  const MIN_PWM: int := 25
  const MAX_PWM: int := 255
  /** Temperature assumed for a file that cannot be read. */
  const FAILSAFE_TEMP: int32 := 100000

  /** Lowest aggregated temperature that drives the fan at MAX_PWM. */
  const FULL_SPEED_TEMP: int := TEMP_OFFSET + MAX_PWM * TEMP_SLOPE
  /** Lowest aggregated temperature that drives the fan above MIN_PWM. */
  const ABOVE_MIN_TEMP: int := TEMP_OFFSET + (MIN_PWM + 1) * TEMP_SLOPE

  /** The outcome of read_sys_file_int on one file: the integer read, or a
      failure (open error or no integer in the file). */
  datatype Reading = Read(value: int32) | ReadError

  /** A write_sys_file_int call the loop issues. */
  datatype PwmWrite = PwmWrite(path: string, value: int)

  /** The loop's state after an iteration, and the writes it issued. */
  datatype StepResult = StepResult(fanPwm: int, writes: seq<PwmWrite>)

  /** The temperature a reading contributes: its value, or the fail-safe
      temperature when the read failed. */
  function Sample(r: Reading): int32 {
    match r
    case Read(v) => v
    case ReadError => FAILSAFE_TEMP
  }

  /** The hottest sample, folded from 0 in list order. */
  function Aggregate(rs: seq<Reading>): (t: int32)
    ensures 0 <= t
    ensures forall i :: 0 <= i < |rs| ==> Sample(rs[i]) <= t
    ensures t == 0 || exists i :: 0 <= i < |rs| && t == Sample(rs[i])
  {
    if rs == [] then 0
    else
      var t := Aggregate(rs[..|rs| - 1]);
      var s := Sample(rs[|rs| - 1]);
      if s > t then s else t
  }

  /** The duty for an aggregated temperature: the C truncating quotient
      `(t - 46850) / 130`, then limited to [25, 255]. It is the full-speed
      duty from 80000 on, the minimum duty below 50230, and in between the
      duty whose 130-millidegree band contains `t`. */
  function PwmFor(t: int): (p: int)
    ensures MIN_PWM <= p <= MAX_PWM
    ensures p == MAX_PWM <==> t >= FULL_SPEED_TEMP
    ensures p == MIN_PWM <==> t < ABOVE_MIN_TEMP
    ensures MIN_PWM < p < MAX_PWM ==> TEMP_OFFSET + p * TEMP_SLOPE <= t < TEMP_OFFSET + (p + 1) * TEMP_SLOPE
  {
    var candidate := TruncDiv(t - TEMP_OFFSET, TEMP_SLOPE);
    if candidate > MAX_PWM then MAX_PWM
    else if candidate < MIN_PWM then MIN_PWM
    else candidate
  }

  /** The writes of one change: the duty to every PWM file, in list order. */
  function WriteAll(sinks: seq<string>, value: int): (ws: seq<PwmWrite>)
    ensures |ws| == |sinks|
    ensures forall i :: 0 <= i < |ws| ==> ws[i] == PwmWrite(sinks[i], value)
  {
    seq(|sinks|, i requires 0 <= i < |sinks| => PwmWrite(sinks[i], value))
  }

  /** One loop iteration. The new state is the computed duty whether or
      not the writes succeed (their results are discarded); every PWM file
      is written exactly when that duty differs from the previous one. */
  function Step(readings: seq<Reading>, fanPwm: int, sinks: seq<string>): (r: StepResult)
    ensures r.fanPwm == PwmFor(Aggregate(readings))
    ensures MIN_PWM <= r.fanPwm <= MAX_PWM
    ensures |r.writes| == if r.fanPwm != fanPwm then |sinks| else 0
    ensures forall i :: 0 <= i < |r.writes| ==> r.writes[i] == PwmWrite(sinks[i], r.fanPwm)
  {
    var pwm := PwmFor(Aggregate(readings));
    if pwm != fanPwm then StepResult(pwm, WriteAll(sinks, pwm))
    else StepResult(fanPwm, [])
  }

  // ---------------------------------------------------------------------
  // Properties of the control law

  /** A hotter aggregate never gives a lower duty. */
  lemma PwmMonotone(t1: int, t2: int)
    requires t1 <= t2
    ensures PwmFor(t1) <= PwmFor(t2)
  {
  }

  /** The reference points of the linear map. */
  lemma PwmReferencePoints()
    ensures PwmFor(50100) == 25
    ensures PwmFor(80000) == 255
    ensures PwmFor(0) == 25
    ensures PwmFor(1000000) == 255
  {
  }

  /** Replacing C's truncating division by Dafny's Euclidean one gives the
      same duty: the two differ only on negative quotients, which the clamp
      maps to MIN_PWM either way. */
  lemma ClampHidesRounding(t: int)
    ensures PwmFor(t) == (var q := (t - TEMP_OFFSET) / TEMP_SLOPE; if q > MAX_PWM then MAX_PWM else if q < MIN_PWM then MIN_PWM else q)
  {
    var a := t - TEMP_OFFSET;
    if a < 0 {
      assert a / TEMP_SLOPE < 0;
      assert TruncDiv(a, TEMP_SLOPE) <= 0;
    }
  }

  /** A failed read anywhere forces the full-speed duty. */
  lemma ReadErrorForcesFullSpeed(readings: seq<Reading>, i: nat)
    requires i < |readings| && readings[i] == ReadError
    ensures PwmFor(Aggregate(readings)) == MAX_PWM
  {
    assert Sample(readings[i]) == FAILSAFE_TEMP;
  }

  /** The aggregate depends only on which readings there are, not on their
      order: the daemon's list holds the files in reverse command-line order. */
  lemma AggregatePermutation(rs1: seq<Reading>, rs2: seq<Reading>)
    requires multiset(rs1) == multiset(rs2)
    ensures Aggregate(rs1) == Aggregate(rs2)
  {
    var t1, t2 := Aggregate(rs1), Aggregate(rs2);
    if t1 != 0 {
      var i :| 0 <= i < |rs1| && t1 == Sample(rs1[i]);
      assert rs1[i] in multiset(rs2);
      var j :| 0 <= j < |rs2| && rs2[j] == rs1[i];
      assert t1 <= t2;
    }
    if t2 != 0 {
      var j :| 0 <= j < |rs2| && t2 == Sample(rs2[j]);
      assert rs2[j] in multiset(rs1);
      var i :| 0 <= i < |rs1| && rs1[i] == rs2[j];
      assert t2 <= t1;
    }
  }

  /** Debounce: a second iteration over the same readings writes nothing. */
  lemma StepIdempotent(readings: seq<Reading>, fanPwm: int, sinks: seq<string>)
    ensures Step(readings, Step(readings, fanPwm, sinks).fanPwm, sinks).writes == []
    ensures Step(readings, Step(readings, fanPwm, sinks).fanPwm, sinks).fanPwm == Step(readings, fanPwm, sinks).fanPwm
  {
  }

  /** Iterations over successive rounds of readings, accumulating every
      write issued. */
  function Run(rounds: seq<seq<Reading>>, fanPwm: int, sinks: seq<string>): (r: StepResult)
    ensures rounds == [] ==> r == StepResult(fanPwm, [])
    ensures rounds != [] ==> r.fanPwm == PwmFor(Aggregate(rounds[|rounds| - 1]))
    ensures forall i :: 0 <= i < |r.writes| ==> MIN_PWM <= r.writes[i].value <= MAX_PWM
    ensures forall i :: 0 <= i < |r.writes| ==> r.writes[i].path in sinks
  {
    if rounds == [] then StepResult(fanPwm, [])
    else
      var prev := Run(rounds[..|rounds| - 1], fanPwm, sinks);
      var last := Step(rounds[|rounds| - 1], prev.fanPwm, sinks);
      StepResult(last.fanPwm, prev.writes + last.writes)
  }
}
