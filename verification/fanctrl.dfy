/** The FPGA fan controller driver (topic-pl-fanctrl.c): initialisation of
    the register block and the hwmon read/write callbacks.

    Register layout for `nrFans` channels:
      - register 0: enable bitmap, bit c = channel c enabled;
      - registers 1 .. nrFans: PWM duty of channel c at index 1 + c;
      - register 1 + nrFans: not used by the driver;
      - registers 2 + nrFans .. 1 + 2 * nrFans: tachometer period of
        channel c at index 2 + nrFans + c, in 100 MHz clock ticks. */
module FanCtrl {
  import opened Registers
  import opened Outcomes

  /** The static hwmon channel tables describe at most three fans. */
  const MAX_FANS: nat := 3

  /** 60 s * 100 MHz / 2 pulses per revolution: RPM times tick period. */
  const TACH_CONSTANT: nat := 3000000000

  /** Largest PWM duty accepted by a write. */
  const PWM_MAX: int := 255

  /** hwmon sensor types; every type other than fan and pwm takes the
      default branch of each switch. */
  datatype SensorType = Fan | Pwm | OtherType(id: nat)

  /** hwmon attribute numbers, as enumerated by the kernel's hwmon header
      (the attribute is interpreted relative to its sensor type). */
  const FAN_INPUT: nat := 1
  const PWM_INPUT: nat := 0
  const PWM_ENABLE: nat := 1

  /** Driver state: the channel count read at probe time and the register
      block it drives. */
  datatype Device = Device(nrFans: nat, regs: RegFile) {
    ghost predicate Valid() {
      nrFans <= MAX_FANS && Covers(regs, RegisterCount(nrFans))
    }
  }

  /** Number of registers the layout spans for `nrFans` channels. */
  function RegisterCount(nrFans: nat): nat {
    2 + 2 * nrFans
  }

  function PwmIndex(channel: nat): nat {
    1 + channel
  }

  function TachIndex(nrFans: nat, channel: nat): nat {
    2 + nrFans + channel
  }

  /** The register index no code path reads or writes. */
  function GapIndex(nrFans: nat): nat {
    1 + nrFans
  }

  /** The bit of register 0 that belongs to `channel`. */
  function ChannelBit(channel: nat): BitIndex
    requires channel < MAX_FANS
  {
    channel as BitIndex
  }

  predicate Enabled(dev: Device, channel: nat)
    requires 0 in dev.regs && channel < MAX_FANS
  {
    Bit(dev.regs[0], ChannelBit(channel))
  }

  // ---------------------------------------------------------------------
  // Initialisation

  /** The enable bitmap written at initialisation: all `nrFans` low bits
      when the initial speed is nonzero, none otherwise. */
  function InitialEnable(nrFans: nat, speed: Word): (w: Word)
    requires nrFans <= MAX_FANS
  {
    if speed != 0 then (1 << (nrFans as BitIndex)) - 1 else 0
  }

  /** Bit `j` of the initial bitmap is set exactly for the configured
      channels, and only when the initial speed is nonzero. */
  lemma InitialEnableBits(nrFans: nat, speed: Word, j: BitIndex)
    requires nrFans <= MAX_FANS
    ensures Bit(InitialEnable(nrFans, speed), j) <==> speed != 0 && (j as int) < nrFans
  {
  }

  /** As a number the initial bitmap is 2^nrFans - 1, or 0 for speed 0. */
  lemma InitialEnableValue(nrFans: nat, speed: Word)
    requires nrFans <= MAX_FANS
    ensures InitialEnable(nrFans, speed) as int == if speed != 0 then Pow2(nrFans) - 1 else 0
  {
  }

  function Pow2(n: nat): (p: nat)
    ensures p >= 1
  {
    if n == 0 then 1 else 2 * Pow2(n - 1)
  }

  /** topic_fanctrl_init: write the enable bitmap, then the initial speed
      into the PWM register of every channel. */
  method Init(nrFans: nat, speed: Word, hw: RegFile) returns (regs: RegFile)
    requires nrFans <= MAX_FANS
    requires Covers(hw, RegisterCount(nrFans))
    ensures regs.Keys == hw.Keys
    ensures regs[0] == InitialEnable(nrFans, speed)
    ensures forall c :: 0 <= c < nrFans ==> regs[PwmIndex(c)] == speed
    ensures forall k :: k in hw && k > nrFans ==> regs[k] == hw[k]
  {
    regs := hw[0 := InitialEnable(nrFans, speed)];
    var i := 0;
    while i < nrFans
      invariant 0 <= i <= nrFans
      invariant regs.Keys == hw.Keys
      invariant regs[0] == InitialEnable(nrFans, speed)
      invariant forall c :: 0 <= c < i ==> regs[PwmIndex(c)] == speed
      invariant forall k :: k in hw && k > i ==> regs[k] == hw[k]
    {
      regs := regs[i + 1 := speed];
      i := i + 1;
    }
  }

  // ---------------------------------------------------------------------
  // Reads

  /** RPM derived from a tachometer period; 0 when no pulses were seen.
      The division is the unsigned (truncating) one of the source. */
  function RpmFromPeriod(period: nat): (rpm: nat)
    ensures period == 0 ==> rpm == 0
    ensures period != 0 ==> rpm * period <= TACH_CONSTANT < (rpm + 1) * period
    ensures rpm <= TACH_CONSTANT
  {
    if period == 0 then 0
    else
      DivBounds(TACH_CONSTANT, period);
      TACH_CONSTANT / period
  }

  lemma DivBounds(a: nat, b: nat)
    requires b > 0
    ensures (a / b) * b <= a < (a / b + 1) * b
    ensures a / b <= a
  {
    var q, m := a / b, a % b;
    assert a == q * b + m && 0 <= m < b;
    assert (q + 1) * b == q * b + b;
    assert q * b >= q by { MulAtLeast(q, b); }
  }

  lemma MulAtLeast(q: nat, b: nat)
    requires b >= 1
    ensures q * b >= q
  {
    assert q * b == q * (b - 1) + q;
  }

  /** topic_fanctrl_read_fan. */
  function ReadFan(dev: Device, attr: nat, channel: nat): (r: Result<int>)
    requires dev.Valid() && channel < dev.nrFans
    ensures r.Ok? <==> attr == FAN_INPUT
    ensures r.Err? ==> r.errno == EOPNOTSUPP
    ensures r.Ok? ==> 0 <= r.value <= TACH_CONSTANT
    ensures r.Ok? ==> r.value == RpmFromPeriod(dev.regs[TachIndex(dev.nrFans, channel)] as int)
  {
    if attr == FAN_INPUT then
      Ok(RpmFromPeriod(dev.regs[TachIndex(dev.nrFans, channel)] as int))
    else
      Err(EOPNOTSUPP)
  }

  /** topic_fanctrl_read_pwm. */
  function ReadPwm(dev: Device, attr: nat, channel: nat): (r: Result<int>)
    requires dev.Valid() && channel < dev.nrFans
    ensures r.Ok? <==> attr == PWM_ENABLE || attr == PWM_INPUT
    ensures r.Err? ==> r.errno == EOPNOTSUPP
    ensures attr == PWM_ENABLE ==> r == Ok(if Enabled(dev, channel) then 1 else 0)
    ensures attr == PWM_INPUT ==> r == Ok(dev.regs[PwmIndex(channel)] as int)
  {
    if attr == PWM_ENABLE then
      Ok(((dev.regs[0] >> ChannelBit(channel)) & 1) as int)
    else if attr == PWM_INPUT then
      Ok(dev.regs[PwmIndex(channel)] as int)
    else
      Err(EOPNOTSUPP)
  }

  /** topic_fanctrl_read: dispatch on the sensor type. */
  function Read(dev: Device, sensor: SensorType, attr: nat, channel: nat): (r: Result<int>)
    requires dev.Valid() && channel < dev.nrFans
    ensures r.Err? ==> r.errno == EOPNOTSUPP
    ensures r.Ok? <==> Readable(sensor, attr)
  {
    match sensor
    case Fan => ReadFan(dev, attr, channel)
    case Pwm => ReadPwm(dev, attr, channel)
    case OtherType(_) => Err(EOPNOTSUPP)
  }

  /** The (type, attribute) pairs the read callback implements. */
  predicate Readable(sensor: SensorType, attr: nat) {
    || (sensor == Fan && attr == FAN_INPUT)
    || (sensor == Pwm && (attr == PWM_INPUT || attr == PWM_ENABLE))
  }

  /** The (type, attribute) pairs the write callback implements. */
  predicate Writable(sensor: SensorType, attr: nat) {
    sensor == Pwm && (attr == PWM_INPUT || attr == PWM_ENABLE)
  }

  // ---------------------------------------------------------------------
  // Writes

  datatype WriteReply = WriteReply(status: Result<()>, dev: Device)

  /** The read-modify-write of register 0 for `pwmN_enable`: set the
      channel's bit for a nonzero value, clear it for zero. */
  function UpdateEnable(reg: Word, bit: BitIndex, val: int): (w: Word)
    ensures Bit(w, bit) <==> val != 0
    ensures forall j: BitIndex :: j != bit ==> Bit(w, j) == Bit(reg, j)
  {
    if val != 0 then
      SetBit(reg, bit);
      reg | Mask(bit)
    else
      ClearBit(reg, bit);
      reg & !Mask(bit)
  }

  /** topic_fanctrl_write_pwm. */
  function WritePwm(dev: Device, attr: nat, channel: nat, val: int): (r: WriteReply)
    requires dev.Valid() && channel < dev.nrFans
    ensures r.dev.nrFans == dev.nrFans && r.dev.regs.Keys == dev.regs.Keys
    ensures r.status.Err? ==> r.dev == dev
    ensures r.status == Err(EOPNOTSUPP) <==> attr != PWM_ENABLE && attr != PWM_INPUT
    ensures r.status == Err(EINVAL) <==> attr == PWM_INPUT && (val < 0 || val > PWM_MAX)
    ensures attr == PWM_ENABLE ==>
      r.dev.regs == dev.regs[0 := UpdateEnable(dev.regs[0], ChannelBit(channel), val)]
    ensures attr == PWM_INPUT && r.status.Ok? ==>
      r.dev.regs == dev.regs[PwmIndex(channel) := val as Word]
  {
    if attr == PWM_ENABLE then
      var reg := UpdateEnable(dev.regs[0], ChannelBit(channel), val);
      WriteReply(Ok(()), dev.(regs := dev.regs[0 := reg]))
    else if attr == PWM_INPUT then
      if val < 0 || val > PWM_MAX then
        WriteReply(Err(EINVAL), dev)
      else
        WriteReply(Ok(()), dev.(regs := dev.regs[PwmIndex(channel) := val as Word]))
    else
      WriteReply(Err(EOPNOTSUPP), dev)
  }

  /** topic_fanctrl_write: only the pwm type has a write handler. */
  function Write(dev: Device, sensor: SensorType, attr: nat, channel: nat, val: int): (r: WriteReply)
    requires dev.Valid() && channel < dev.nrFans
    ensures r.dev.Valid() && r.dev.nrFans == dev.nrFans && r.dev.regs.Keys == dev.regs.Keys
    ensures r.status.Err? ==> r.dev == dev
    ensures r.status == Err(EOPNOTSUPP) <==> !Writable(sensor, attr)
    ensures r.status == Err(EINVAL) <==> sensor == Pwm && attr == PWM_INPUT && (val < 0 || val > PWM_MAX)
    ensures forall k :: k in dev.regs && k != 0 && k != PwmIndex(channel) ==> r.dev.regs[k] == dev.regs[k]
  {
    match sensor
    case Pwm => WritePwm(dev, attr, channel, val)
    case _ => WriteReply(Err(EOPNOTSUPP), dev)
  }

  // ---------------------------------------------------------------------
  // Properties of the protocol

  /** A longer tachometer period never reports a higher RPM. */
  lemma RpmNonIncreasing(p1: nat, p2: nat)
    requires 0 < p1 <= p2
    ensures RpmFromPeriod(p2) <= RpmFromPeriod(p1)
  {
    var r1, r2 := RpmFromPeriod(p1), RpmFromPeriod(p2);
    if r2 > r1 {
      MulMonotone(r1 + 1, r2, p1, p2);
      assert false;
    }
  }

  lemma MulMonotone(a: nat, b: nat, c: nat, d: nat)
    requires a <= b && c <= d
    ensures a * c <= b * d
  {
    assert a * c <= a * d;
    assert a * d <= b * d;
  }

  /** Distinct channels own distinct bits of the enable register. */
  lemma ChannelBitsDistinct(c1: nat, c2: nat)
    requires c1 < MAX_FANS && c2 < MAX_FANS && c1 != c2
    ensures ChannelBit(c1) != ChannelBit(c2)
  {
  }

  /** Right after initialisation every channel reads back the initial
      speed as its duty, and is enabled exactly when that speed is
      nonzero. */
  lemma InitReadBack(nrFans: nat, speed: Word, regs: RegFile, c: nat)
    requires nrFans <= MAX_FANS && Covers(regs, RegisterCount(nrFans))
    requires regs[0] == InitialEnable(nrFans, speed)
    requires forall i :: 0 <= i < nrFans ==> regs[PwmIndex(i)] == speed
    requires c < nrFans
    ensures Read(Device(nrFans, regs), Pwm, PWM_INPUT, c) == Ok(speed as int)
    ensures Read(Device(nrFans, regs), Pwm, PWM_ENABLE, c) == Ok(if speed != 0 then 1 else 0)
  {
    InitialEnableBits(nrFans, speed, ChannelBit(c));
  }

  /** A duty in [0, 255] is stored and read back unchanged. */
  lemma PwmRoundTrip(dev: Device, c: nat, v: int)
    requires dev.Valid() && c < dev.nrFans
    requires 0 <= v <= PWM_MAX
    ensures Write(dev, Pwm, PWM_INPUT, c, v).status == Ok(())
    ensures Read(Write(dev, Pwm, PWM_INPUT, c, v).dev, Pwm, PWM_INPUT, c) == Ok(v)
  {
    ByteWordRoundTrip(v);
  }

  /** A duty outside [0, 255] is refused with -EINVAL and nothing is
      written. */
  lemma PwmRejected(dev: Device, c: nat, v: int)
    requires dev.Valid() && c < dev.nrFans
    requires v < 0 || v > PWM_MAX
    ensures Write(dev, Pwm, PWM_INPUT, c, v).status.ReturnCode() == -22
    ensures Write(dev, Pwm, PWM_INPUT, c, v).dev == dev
  {
  }

  /** Writing `pwmN_enable` and reading it back gives 1 for a nonzero
      value and 0 for zero. */
  lemma EnableRoundTrip(dev: Device, c: nat, v: int)
    requires dev.Valid() && c < dev.nrFans
    ensures Write(dev, Pwm, PWM_ENABLE, c, v).status == Ok(())
    ensures Read(Write(dev, Pwm, PWM_ENABLE, c, v).dev, Pwm, PWM_ENABLE, c) == Ok(if v != 0 then 1 else 0)
  {
  }

  /** A write on one channel changes no attribute of any other channel:
      the enable read-modify-write keeps the other bits of register 0. */
  lemma WriteIsolation(dev: Device, sensor: SensorType, attr: nat, c: nat, v: int,
                       sensor2: SensorType, attr2: nat, c2: nat)
    requires dev.Valid() && c < dev.nrFans && c2 < dev.nrFans && c != c2
    ensures Read(Write(dev, sensor, attr, c, v).dev, sensor2, attr2, c2) == Read(dev, sensor2, attr2, c2)
  {
    var w := Write(dev, sensor, attr, c, v);
    ChannelBitsDistinct(c, c2);
    assert w.dev.regs[TachIndex(dev.nrFans, c2)] == dev.regs[TachIndex(dev.nrFans, c2)];
    assert w.dev.regs[PwmIndex(c2)] == dev.regs[PwmIndex(c2)];
    assert Enabled(w.dev, c2) == Enabled(dev, c2);
  }

  /** No write touches a tachometer register or the unused register
      between the PWM and tachometer banks. */
  lemma WriteKeepsTachAndGap(dev: Device, sensor: SensorType, attr: nat, c: nat, v: int)
    requires dev.Valid() && c < dev.nrFans
    ensures Write(dev, sensor, attr, c, v).dev.regs[GapIndex(dev.nrFans)] == dev.regs[GapIndex(dev.nrFans)]
    ensures forall c2 :: 0 <= c2 < dev.nrFans ==>
      Write(dev, sensor, attr, c, v).dev.regs[TachIndex(dev.nrFans, c2)] == dev.regs[TachIndex(dev.nrFans, c2)]
  {
  }
}
