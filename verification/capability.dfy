/** The hwmon `is_visible` callbacks of the fan controller: which
    (sensor type, attribute, channel) triples are exposed, and with which
    file mode. */
module Capability {
  import opened CTypes
  import opened FanCtrl
  import opened Outcomes

  /** umode_t file mode bits. */
  type Mode = bv16

  /** S_IRUGO, octal 0444: readable by everyone. */
  const S_IRUGO: Mode := 0x124
  /** S_IWUSR, octal 0200: writable by the owner. */
  const S_IWUSR: Mode := 0x80
  /** Not exposed. */
  const HIDDEN: Mode := 0

  /** `channel < data->nr_fans` with an `int` channel and a `u32` count:
      the channel is converted to unsigned before the comparison. */
  predicate ChannelExists(nrFans: nat, channel: int32)
    requires nrFans <= MAX_FANS
    ensures ChannelExists(nrFans, channel) <==> 0 <= channel < nrFans
  {
    ToUnsigned(channel) < nrFans
  }

  /** topic_fanctrl_fan_is_visible. */
  function FanIsVisible(nrFans: nat, attr: nat, channel: int32): (mode: Mode)
    requires nrFans <= MAX_FANS
    ensures mode == HIDDEN || mode == S_IRUGO
    ensures mode == S_IRUGO <==> attr == FAN_INPUT && 0 <= channel < nrFans
  {
    if attr == FAN_INPUT && ChannelExists(nrFans, channel) then S_IRUGO else HIDDEN
  }

  /** topic_fanctrl_pwm_is_visible. */
  function PwmIsVisible(nrFans: nat, attr: nat, channel: int32): (mode: Mode)
    requires nrFans <= MAX_FANS
    ensures mode == HIDDEN || mode == S_IRUGO | S_IWUSR
    ensures mode == S_IRUGO | S_IWUSR <==> (attr == PWM_INPUT || attr == PWM_ENABLE) && 0 <= channel < nrFans
  {
    if (attr == PWM_INPUT || attr == PWM_ENABLE) && ChannelExists(nrFans, channel) then
      S_IRUGO | S_IWUSR
    else
      HIDDEN
  }

  /** topic_fanctrl_is_visible: dispatch on the sensor type. Exactly the
      attributes the read callback implements are readable, exactly those
      the write callback implements are writable, and nothing is exposed
      for a channel the device does not have. */
  function IsVisible(nrFans: nat, sensor: SensorType, attr: nat, channel: int32): (mode: Mode)
    requires nrFans <= MAX_FANS
    ensures mode == HIDDEN || mode == S_IRUGO || mode == S_IRUGO | S_IWUSR
    ensures mode & S_IRUGO == S_IRUGO <==> Readable(sensor, attr) && 0 <= channel < nrFans
    ensures mode & S_IWUSR == S_IWUSR <==> Writable(sensor, attr) && 0 <= channel < nrFans
    ensures !(0 <= channel < nrFans) ==> mode == HIDDEN
  {
    match sensor
    case Fan => FanIsVisible(nrFans, attr, channel)
    case Pwm => PwmIsVisible(nrFans, attr, channel)
    case OtherType(_) => HIDDEN
  }

  /** What `is_visible` exposes is what the callbacks serve: on an existing
      channel a read succeeds exactly when the attribute is readable, and a
      write is implemented exactly when it is writable. */
  lemma VisibilityMatchesCallbacks(dev: Device, sensor: SensorType, attr: nat, channel: nat, v: int)
    requires dev.Valid() && channel < dev.nrFans
    ensures Read(dev, sensor, attr, channel).Ok?
      <==> IsVisible(dev.nrFans, sensor, attr, channel) & S_IRUGO == S_IRUGO
    ensures Write(dev, sensor, attr, channel, v).status != Err(EOPNOTSUPP)
      <==> IsVisible(dev.nrFans, sensor, attr, channel) & S_IWUSR == S_IWUSR
  {
  }
}
