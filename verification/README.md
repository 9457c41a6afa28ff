# FPGA fan controller: driver register protocol and thermal control loop

This project is a Dafny model of two small parts of the Topic FPGA fan
controller software, with proofs about them.

- **The kernel driver** (`topic-pl-fanctrl.c`). It drives an AXI fan
  controller through a block of 32-bit registers. Register 0 is the enable
  bitmap. Registers `1 .. nr_fans` hold the PWM duty of each channel.
  Register `2 + nr_fans + c` holds the tachometer period of channel `c`, in
  100 MHz ticks. Register `1 + nr_fans` is never used. The driver exposes
  `fanN_input`, `pwmN` and `pwmN_enable` through hwmon callbacks: read,
  write and `is_visible`. The model covers initialisation, those callbacks
  and the devicetree defaults of probe. The register block is an immutable
  map from index to `bv32`. Each callback is a pure function that returns
  its result code and the new registers.
- **The `pwm-fancontrol` daemon** (`app/pwm-fancontrol.c`). Each second it
  reads every temperature file and takes the hottest reading. A failed read
  counts as 100000. It maps the temperature to a duty with
  `(t - 46850) / 130`, clamps the duty to [25, 255], and writes it to every
  PWM file when it differs from the last duty written. The model covers one
  loop iteration as a pure step, a finite run of iterations, the option
  switch with its prepend-built file lists, the check that both lists are
  non-empty, and the seeding of the last duty.

Modules, leaves first:

- `Outcomes` (`outcomes.dfy`): Option, the errno values, and the `0` / `-errno` result.
- `CTypes` (`ctypes.dfy`): C `int`, conversion of `int` to `unsigned`, and truncating division.
- `Registers` (`registers.dfy`): register words, bit reads, and the `|` / `& ~` bit updates.
- `FanCtrl` (`fanctrl.dfy`): the device, init, and the read/write callbacks with their properties.
- `Capability` (`capability.dfy`): the `is_visible` callbacks.
- `Probe` (`probe.dfy`): the `nr-fans` and `topic,initial-pwm` handling in probe.
- `Thermal` (`thermal.dfy`): the control-loop step and its properties.
- `Daemon` (`daemon.dfy`): `main` up to the loop.

Where the design description and the code disagree, the model follows the code:

- The design puts a mutex around the enable read-modify-write. The driver
  has no lock. The model is a plain sequential update.
- The design says an out-of-range channel fails with an invalid-argument
  error. The driver never checks the channel outside `is_visible`. The
  model makes `channel < nr_fans` a precondition of the callbacks, because
  hwmon only calls the callbacks for visible attributes.
- The design puts the tachometer bank at `1 + nr_fans + c`. The driver reads
  `2 + nr_fans + c`.
- The design says the initial duty is a PWM value. The driver does not
  range-check `topic,initial-pwm`: any u32 is written to the PWM registers,
  and the model keeps that.

## Model

| member | source | states |
|---|---|---|
| `FanCtrl.Init` | topic-pl-fanctrl.c:25-32 | Register 0 becomes the initial enable bitmap. Every channel's PWM register `1 + c` holds the initial speed. Every register above `nr_fans` keeps its old contents, and the set of registers is unchanged. |
| `FanCtrl.InitialEnableBits` | topic-pl-fanctrl.c:29 | Bit `j` of the initial bitmap is set iff the speed is nonzero and `j < nr_fans`. |
| `FanCtrl.InitialEnableValue` | topic-pl-fanctrl.c:29 | As a number, the initial bitmap is `2^nr_fans - 1` for a nonzero speed and 0 for speed 0. |
| `FanCtrl.InitReadBack` | topic-pl-fanctrl.c:25-32 | After init, every channel's duty reads back as the initial speed. Its enable reads back as 1 iff the speed is nonzero. |
| `FanCtrl.RpmFromPeriod` | topic-pl-fanctrl.c:42-48 | Period 0 gives RPM 0. Otherwise the RPM is the truncated quotient: `rpm * period <= 3000000000 < (rpm + 1) * period`. The RPM is never above 3000000000. |
| `FanCtrl.RpmNonIncreasing` | topic-pl-fanctrl.c:44-46 | A longer nonzero period never gives a higher RPM. |
| `FanCtrl.ReadFan` | topic-pl-fanctrl.c:34-53 | Only `fan_input` succeeds. It returns the RPM of the period at register `2 + nr_fans + c`, a value in [0, 3000000000]. Any other attribute gives -EOPNOTSUPP. |
| `FanCtrl.ReadPwm` | topic-pl-fanctrl.c:68-86 | `pwm_enable` returns 1 iff the channel's bit of register 0 is set, and 0 otherwise. `pwm_input` returns register `1 + c`. Any other attribute gives -EOPNOTSUPP. |
| `FanCtrl.Read` | topic-pl-fanctrl.c:127-138 | A read succeeds iff the (type, attribute) pair is fan/input, pwm/input or pwm/enable. Every failure is -EOPNOTSUPP. |
| `Registers.SetBit` | topic-pl-fanctrl.c:97-98 | OR-ing `BIT(j)` into a word sets bit `j` and keeps every other bit as before. |
| `Registers.ClearBit` | topic-pl-fanctrl.c:99-100 | `reg & ~BIT(j)` has bit `j` clear and every other bit as before. |
| `Registers.ByteWordRoundTrip` | topic-pl-fanctrl.c:106 | A value in [0, 255] stored as `(u32)val` reads back as the same number. |
| `FanCtrl.UpdateEnable` | topic-pl-fanctrl.c:95-102 | The new register 0 has the channel's bit set iff the written value is nonzero. Every other bit is unchanged. |
| `FanCtrl.WritePwm` | topic-pl-fanctrl.c:88-111 | `pwm_enable` replaces only register 0 with its bit update. `pwm_input` outside [0, 255] gives -EINVAL and changes nothing. Otherwise it stores the value in register `1 + c` only. Any other attribute gives -EOPNOTSUPP and changes nothing. |
| `FanCtrl.Write` | topic-pl-fanctrl.c:140-149 | The write reports -EOPNOTSUPP iff the pair is not pwm/input or pwm/enable, so every fan or unknown type is refused. It reports -EINVAL iff it is a pwm/input value outside [0, 255]. A failed write changes no register. A successful one changes only register 0 or register `1 + c`, and the device stays well formed. |
| `FanCtrl.PwmRoundTrip` | topic-pl-fanctrl.c:103-107 | Writing a duty in [0, 255] succeeds. A following `pwm_input` read returns that duty. |
| `FanCtrl.PwmRejected` | topic-pl-fanctrl.c:104-105 | Writing a duty below 0 or above 255 returns -22 (-EINVAL) and leaves the device unchanged. |
| `FanCtrl.EnableRoundTrip` | topic-pl-fanctrl.c:95-102 | Writing `pwm_enable` succeeds. A following enable read returns 1 iff the written value was nonzero. |
| `FanCtrl.WriteIsolation` | topic-pl-fanctrl.c:88-111 | A write on channel `c` leaves every read of every attribute of any other channel unchanged. |
| `FanCtrl.WriteKeepsTachAndGap` | topic-pl-fanctrl.c:88-111 | No write changes a tachometer register or register `1 + nr_fans`. |
| `Capability.ChannelExists` | topic-pl-fanctrl.c:60 | The comparison of the `int` channel with the `u32` count, done unsigned, holds iff `0 <= channel < nr_fans`. |
| `Capability.FanIsVisible` | topic-pl-fanctrl.c:55-66 | The mode is read-only (0444) iff the attribute is `fan_input` and the channel exists. Otherwise it is 0. |
| `Capability.PwmIsVisible` | topic-pl-fanctrl.c:113-125 | The mode is read-write (0644) iff the attribute is `pwm_input` or `pwm_enable` and the channel exists. Otherwise it is 0. |
| `Capability.IsVisible` | topic-pl-fanctrl.c:151-165 | The mode is 0, 0444 or 0644. It is readable iff the pair is one the read callback implements and the channel exists. It is writable iff the pair is one the write callback implements and the channel exists. A channel `>= nr_fans` is hidden. |
| `Capability.VisibilityMatchesCallbacks` | topic-pl-fanctrl.c:127-165 | On an existing channel, a read succeeds iff `is_visible` grants read. A write is implemented, meaning not -EOPNOTSUPP, iff `is_visible` grants write. |
| `Probe.InitialSpeed` | topic-pl-fanctrl.c:242-246 | The speed is the `topic,initial-pwm` value when it is present, and 50 otherwise. |
| `Probe.Probe` | topic-pl-fanctrl.c:211-248 | Probe fails iff `nr-fans` is absent. The failure is -ENODEV (-19), with no register written. On success, every channel reads back the initial speed, or 50 by default. Every channel is enabled iff that speed is nonzero. Registers above `nr_fans` are untouched. |
| `CTypes.TruncDiv` | app/pwm-fancontrol.c:212 | The quotient truncates toward zero. The remainder `a - q*b` lies in [0, b) for `a >= 0` and in (-b, 0] for `a < 0`. |
| `Thermal.Aggregate` | app/pwm-fancontrol.c:201-209 | The aggregate is at least 0 and at least every sample, where a failed read counts as 100000. It is 0 or equal to one of the samples. |
| `Thermal.AggregatePermutation` | app/pwm-fancontrol.c:201-209 | Reordering the readings does not change the aggregate. |
| `Thermal.PwmFor` | app/pwm-fancontrol.c:211-218 | The duty lies in [25, 255]. It is 255 iff `t >= 80000` and 25 iff `t < 50230`. In between, duty `p` means `46850 + 130p <= t < 46850 + 130(p+1)`. |
| `Thermal.PwmMonotone` | app/pwm-fancontrol.c:212-218 | A higher aggregate never gives a lower duty. |
| `Thermal.PwmReferencePoints` | app/pwm-fancontrol.c:211-218 | 50100 gives 25, 80000 gives 255, 0 gives 25, and 1000000 gives 255. |
| `Thermal.ClampHidesRounding` | app/pwm-fancontrol.c:212-218 | The duty is the same if Euclidean division replaces C's truncating division. |
| `Thermal.ReadErrorForcesFullSpeed` | app/pwm-fancontrol.c:204-218 | If any temperature read fails, the duty is 255. |
| `Thermal.WriteAll` | app/pwm-fancontrol.c:221-222 | It issues one write per PWM file, in list order, each carrying the duty. |
| `Thermal.Step` | app/pwm-fancontrol.c:201-224 | The new last duty is the clamped duty of the aggregate, whatever happens to the writes. Every PWM file is written with it, in list order, iff it differs from the previous duty. Otherwise nothing is written. |
| `Thermal.StepIdempotent` | app/pwm-fancontrol.c:220-224 | A second iteration with the same readings issues no writes and keeps the duty. |
| `Thermal.Run` | app/pwm-fancontrol.c:198-224 | Over any run of iterations, every write goes to a configured PWM file with a duty in [25, 255]. The final duty is that of the last round's readings. |
| `Daemon.StringListAdd` | app/pwm-fancontrol.c:136-142 | The new item becomes the head, and the old list follows it unchanged. |
| `Daemon.ParseOptions` | app/pwm-fancontrol.c:158-179 | Option parsing fails, and `main` returns 1, iff an unknown option occurs. Otherwise the PWM and temperature lists hold the `-p` and `-t` arguments in reverse command-line order. |
| `Daemon.Seed` | app/pwm-fancontrol.c:187-190 | The seed is the value read, or 0 when the read fails. |
| `Daemon.Start` | app/pwm-fancontrol.c:181-190 | `main` returns 1 before the loop iff an option is unknown or no `-p` or no `-t` was given. Otherwise the last duty is seeded by reading the last `-p` file given, which is the head of the list. |
| `Daemon.FailedSeedForcesFirstWrite` | app/pwm-fancontrol.c:187-190 | When the first PWM file cannot be read, the first iteration writes every PWM file. |

## Left out

- MMIO mechanics are not modelled: `ioread32`/`iowrite32`, access ordering, clearing `IORESOURCE_CACHEABLE`, and `devm_ioremap_resource`. The register block is an abstract map.
- Probe's earlier failures are not modelled: allocation failure (-ENOMEM), the missing memory resource (-ENXIO), and the mapping error. They are resource handling, not protocol.
- hwmon registration and its return value, the static channel tables, the OF match table and the `MODULE_*` declarations are kernel glue. The tables appear only as the bound `nr_fans <= 3`.
- Probe does not check `nr-fans`. The model requires `nr_fans <= 3`, the count the static tables describe. That bound also keeps `1 << nr_fans` defined.
- The hwmon attribute numbers come from the kernel's hwmon header, which is not part of this model. The proofs rely only on `pwm_input` and `pwm_enable` being distinct.
- C `long` is modelled as an unbounded integer. With a 32-bit `long`, a tachometer period of 1 gives an RPM of 3000000000, which would not fit. The model does not track that.
- There is no lock and no concurrency. The driver has no lock, so the enable update is a sequential state change.
- These parts of the daemon are operating-system glue: `daemonize` with its PID-file locking, `signal_handler`, the `/dev/watchdog` writes, `sleep`, and getopt's scanning of `argv`. The model starts from the decoded options.
- The file I/O in `read_sys_file_int` is a `Reading` value, either the integer read or a failure. The `write_sys_file_int` calls are the issued writes. Their results are discarded by the loop, so they are not modelled.
- `read_sys_file_float` is unused and floating point. The `usage` and verbose `printf` output carry no state.
- `Thermal.Run`: the daemon loops forever. The model covers every finite prefix of iterations.
