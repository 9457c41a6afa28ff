/** The configuration part of topic_fanctrl_probe: the channel count and
    the initial duty come from devicetree properties, then the register
    block is initialised. */
module Probe {
  import opened Registers
  import opened Outcomes
  import opened FanCtrl

  /** Duty used when `topic,initial-pwm` is absent. */
  const DEFAULT_PWM: Word := 50

  /** The devicetree properties probe reads; an absent property, or one
      that cannot be read as a u32, is None. */
  datatype DeviceTree = DeviceTree(nrFans: Option<nat>, initialPwm: Option<Word>)

  /** The initial duty: the property when present, the default otherwise. */
  function InitialSpeed(dt: DeviceTree): (speed: Word)
    ensures dt.initialPwm.Some? ==> speed == dt.initialPwm.value
    ensures dt.initialPwm.None? ==> speed == DEFAULT_PWM
  {
    dt.initialPwm.GetOr(DEFAULT_PWM)
  }

  /** topic_fanctrl_probe from the `nr-fans` lookup on. Without `nr-fans`
      probe fails with -ENODEV before any register is written; otherwise
      the device comes up with every channel at the initial duty, enabled
      exactly when that duty is nonzero, and the tachometer registers and
      the unused register untouched. */
  method Probe(dt: DeviceTree, hw: RegFile) returns (r: Result<Device>, regs: RegFile)
    requires dt.nrFans.Some? ==> dt.nrFans.value <= MAX_FANS && Covers(hw, RegisterCount(dt.nrFans.value))
    ensures r.Err? <==> dt.nrFans.None?
    ensures r.Err? ==> r.errno == ENODEV && r.ReturnCode() == -19 && regs == hw
    ensures r.Ok? ==> r.value.Valid() && r.value.nrFans == dt.nrFans.value && r.value.regs == regs
    ensures r.Ok? ==> forall c :: 0 <= c < r.value.nrFans ==>
      && Read(r.value, Pwm, PWM_INPUT, c) == Ok(InitialSpeed(dt) as int)
      && Read(r.value, Pwm, PWM_ENABLE, c) == Ok(if InitialSpeed(dt) != 0 then 1 else 0)
    ensures r.Ok? ==> regs.Keys == hw.Keys && forall k :: k in hw && k > r.value.nrFans ==> regs[k] == hw[k]
  {
    if dt.nrFans.None? {
      return Err(ENODEV), hw;
    }
    var nrFans := dt.nrFans.value;
    var speed := InitialSpeed(dt);
    regs := Init(nrFans, speed, hw);
    r := Ok(Device(nrFans, regs));
    forall c | 0 <= c < nrFans
      ensures Read(r.value, Pwm, PWM_INPUT, c) == Ok(speed as int)
      ensures Read(r.value, Pwm, PWM_ENABLE, c) == Ok(if speed != 0 then 1 else 0)
    {
      InitReadBack(nrFans, speed, regs, c);
    }
  }
}
