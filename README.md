# S5PV210 board drivers: OV2655 sensor control, GPIO LED, platform-data helpers

A Dafny model of three small pieces of a Linux 3.10 tree for Samsung S5PV210 boards.

- **OV2655 camera sensor driver** (`Ov2655`, `ov2655.dfy`). This is the control path only. It covers:
  - the byte layout of register reads and writes on I2C;
  - the power-on/reset and power-off GPIO sequences, with their delays;
  - loading the initial register table;
  - detecting the sensor (`read_id`);
  - `s_power`, `s_stream` and `set_fmt`;
  - the default format;
  - `configure_gpios` and `probe`.

  The hardware is a trace of events: GPIO requests, GPIO output levels, sleeps and I2C messages. Each method states exactly which events it appends. A line's level is the level of the last output event naming it (`LastLevel`). Lemmas then state the levels each sequence leaves behind:
  - power-on releases reset and powers the sensor;
  - power-off powers it down and leaves reset alone;
  - bus traffic never moves a line;
  - a failed id read leaves the sensor powered and writes no register;
  - a successful one loads the table and powers the sensor down.

  The id byte is read but never compared with an expected value. Any byte counts as "detected". The comment above `ov2655_read_id` (ov2655.c:166-169) promises `-ENODEV` when no sensor answers, but the code returns -1 (ov2655.c:183), and probe passes -1 on. The model follows the code.
- **S5PV210 GPIO LED driver** (`LedsS5pv210`, `leds_s5pv210.dfy`). This is the brightness setter and the GPIO part of probe. The pin is a latched value plus a direction. The driver's GPIO calls are recorded, and the invariant `pin == Run(pin0, ops)` ties the pin to them. Properties proved:
  - the driven level is `(value != 0) XOR ACTLOW`;
  - in tristate mode "off" makes the pin an input;
  - setting a brightness twice equals setting it once;
  - probe leaves the LED off, in the state `set(0)` would produce.
- **Samsung platform-data helpers** (`PlatformData`, `platformdata.dfy`):
  - `s3c_set_platdata` clones board data into a device, or returns NULL.
  - `s3c_fb0_set_platdata` also edits the clone: buffer counts per window, and memory regions laid out back to back from the media memory bank. Two in-place array methods compute this. They are proved equal to a closed-form layout. Lemmas state the buffer counts, the region sizes, contiguity, and the absence of overlap.
  - `s3c_sdhci_set_platdata` merges SDHCI settings in place. Its result is a pure merge function, proved idempotent.

`Wrappers` (`wrappers.dfy`) holds the `Option` type, and `Errno` (`errno.dfy`) holds the kernel error number both probes return.

Whatever the environment returns is a parameter of the operation that consumes it:
- I2C transfer counts;
- `gpio_request`, `devm_kzalloc` and `kmemdup` outcomes;
- `media_entity_init` and `led_classdev_register` results;
- the media memory bank address;
- the `CONFIG_FB_S3C_*` settings.

## Model

| member | source | states |
|---|---|---|
| Ov2655.AddrBytes | drivers/media/i2c/ov2655.c:79-80 | two address bytes, high byte first: `hi * 256 + lo` is the register number |
| Ov2655.WriteMsg | drivers/media/i2c/ov2655.c:110-116 | a write is one message to the client address, length 3: address bytes, then the value |
| Ov2655.Sensor.I2cRead | drivers/media/i2c/ov2655.c:72-97 | sends the address bytes; receives one byte only if the send moved 2 bytes; returns 0 and the byte only when send gave 2 and receive gave 1, else -1 and no byte |
| Ov2655.Sensor.I2cWrite | drivers/media/i2c/ov2655.c:102-123 | issues exactly one three-byte write message and returns 0 whatever the transfer returned |
| Ov2655.PowerOnLevels | drivers/media/i2c/ov2655.c:128-139 | after power-on, RST is driven high; PWDN is driven low (powered) whenever the two lines differ |
| Ov2655.Sensor.PowerOnAndReset | drivers/media/i2c/ov2655.c:128-139 | appends PWDN 1, 20 ms, PWDN 0, 20 ms, RST 0, 50 ms, RST 1, 15 ms; ends with RST high and, on distinct lines, PWDN low |
| Ov2655.PowerOffLevels | drivers/media/i2c/ov2655.c:144-149 | power-off drives PWDN high and leaves every other line's level unchanged |
| Ov2655.Sensor.PowerOff | drivers/media/i2c/ov2655.c:144-149 | appends PWDN 1 then 20 ms; PWDN ends high, RST keeps its level when the lines differ |
| Ov2655.BusKeepsLevels | drivers/media/i2c/ov2655.c:155-164 | neither the table load nor a register read changes any GPIO level |
| Ov2655.Sensor.RegInit | drivers/media/i2c/ov2655.c:155-164 | writes every table entry once, in table order, regardless of transfer results |
| Ov2655.ReadIdLevels | drivers/media/i2c/ov2655.c:170-192 | after id detection RST is high; PWDN is high (powered off) after a good read, low (still powered) after a failed one |
| Ov2655.ReadIdFailureWritesNothing | drivers/media/i2c/ov2655.c:180-184 | a failed id read issues power-on and the id address phase, and no register write at all |
| Ov2655.Sensor.ReadId | drivers/media/i2c/ov2655.c:170-192 | power-on, read register 0x300a, then table load and power-off only on success; returns 0 or -1 accordingly, with the line levels of ReadIdLevels |
| Ov2655.PowerOnThenInitLevels | drivers/media/i2c/ov2655.c:214-217 | powering on and loading the table leaves the sensor powered and out of reset |
| Ov2655.SPowerOutcome | drivers/media/i2c/ov2655.c:209-224 | `s_power(on != 0)` ends powered with reset released; `s_power(0)` ends powered down with reset untouched |
| Ov2655.Sensor.SPower | drivers/media/i2c/ov2655.c:209-224 | on: power-on sequence then table load; off: power-off sequence; always returns 0; resulting levels as SPowerOutcome |
| Ov2655.Sensor.SStream | drivers/media/i2c/ov2655.c:200-207 | streaming on or off always succeeds (returns 0) |
| Ov2655.Sensor.SetFmt | drivers/media/i2c/ov2655.c:194-198 | any format is accepted (returns 0) |
| Ov2655.GetDefaultFormat | drivers/media/i2c/ov2655.c:229-233 | width 800 and height 600 from the only frame-size entry; code, field and colorspace unchanged |
| Ov2655.Sensor.constructor | drivers/media/i2c/ov2655.c:306-310 | the zero-filled driver structure: both GPIO numbers 0, nothing issued yet |
| Ov2655.Sensor.ConfigureGpios | drivers/media/i2c/ov2655.c:275-295 | copies PWDN and reset GPIO numbers from platform data, requests them as "GPF34" and "GPE14", returns 0 even if a request failed |
| Ov2655.Probe | drivers/media/i2c/ov2655.c:297-336 | -ENOMEM and no device when allocation fails; a failing media_entity_init returns its code after the GPIO requests only; otherwise returns read_id's result after requests plus the whole id-detection sequence |
| LedsS5pv210.StateFor | drivers/leds/leds-s5pv210.c:96 | the driven level is 0 or 1: lit means 1 for an active-high LED and 0 for an active-low one |
| LedsS5pv210.SetOps | drivers/leds/leds-s5pv210.c:101-108 | one `gpio_set_value` with that level; only in tristate mode a second call follows: `gpio_direction_output` at the same level when lit, `gpio_direction_input` when off |
| LedsS5pv210.SetEffect | drivers/leds/leds-s5pv210.c:91-109 | the pin latches the level; without tristate its direction is unchanged, with tristate it becomes an output when lit and an input when off |
| LedsS5pv210.SetIdempotent | drivers/leds/leds-s5pv210.c:91-109 | setting the same brightness twice leaves the pin as setting it once |
| LedsS5pv210.GpioLed.constructor | drivers/leds/leds-s5pv210.c:126-140 | a new LED bound to its platform data, no GPIO calls yet, pin as found |
| LedsS5pv210.GpioLed.Set | drivers/leds/leds-s5pv210.c:91-109 | records SetOps and moves the pin to SetEffect, keeping `pin == Run(pin0, ops)` |
| LedsS5pv210.ProbeIsOff | drivers/leds/leds-s5pv210.c:148-154 | after probe the pin is an input (tristate) or an output at the level `set(0)` drives, so a following `set(0)` changes no direction, and without tristate nothing at all |
| LedsS5pv210.Probe | drivers/leds/leds-s5pv210.c:120-167 | -ENOMEM on allocation failure; a failed GPIO request returns its code with only the request issued; otherwise request then direction setup, returning the classdev registration result |
| PlatformData.Clone | arch/arm/plat-samsung/platformdata.c:28-38 | there is a copy exactly when data was supplied and the allocation succeeded, and it equals the data |
| PlatformData.SetPlatdata | arch/arm/plat-samsung/platformdata.c:23-42 | returns the copy and installs it in the device; on NULL data or failed allocation returns NULL and leaves the device alone |
| PlatformData.OverlayCount | arch/arm/plat-samsung/platformdata.c:67-74 | the configured overlay count, or 0 when it exceeds the default window, so it never exceeds the default window unless it is 0 |
| PlatformData.Fb0Layout | arch/arm/plat-samsung/platformdata.c:63-93 | the edited data keeps the per-window arrays' length and the default window inside them |
| PlatformData.Fb0BufferCounts | arch/arm/plat-samsung/platformdata.c:64-78 | the default window gets CONFIG_FB_S3C_NR_BUFFERS, each overlay CONFIG_FB_S3C_NUM_BUF_OVLY_WIN, other windows below `nr_wins` 1, windows beyond keep their copied count |
| PlatformData.AssignBufferCounts | arch/arm/plat-samsung/platformdata.c:64-78 | the in-place loops leave every entry of `nr_buffers` at the count Fb0BufferCounts describes |
| PlatformData.Fb0SizesMatchBuffers | arch/arm/plat-samsung/platformdata.c:80-93 | each laid-out region is `xres * yres * 4` bytes per buffer times its window's buffer count |
| PlatformData.Fb0Contiguous | arch/arm/plat-samsung/platformdata.c:85-92 | regions start at the bank base; each overlay starts where the previous one ends; the default window starts where the last overlay ends |
| PlatformData.Fb0DefaultAfterOverlays | arch/arm/plat-samsung/platformdata.c:85-92 | the default window starts at the bank base plus the sum of the overlay region sizes |
| PlatformData.Fb0NoOverlap | arch/arm/plat-samsung/platformdata.c:85-93 | no two laid-out regions overlap, given a non-negative overlay buffer count |
| PlatformData.Fb0KeepsOthers | arch/arm/plat-samsung/platformdata.c:63-94 | windows without a region keep their copied start and size; no field outside the three per-window arrays changes |
| PlatformData.LayoutRegions | arch/arm/plat-samsung/platformdata.c:80-93 | the running-start loop and the default-window step leave every start and size at the closed-form layout |
| PlatformData.Fb0EditClone | arch/arm/plat-samsung/platformdata.c:63-94 | the in-place edit of the clone produces exactly Fb0Layout |
| PlatformData.Fb0SetPlatdata | arch/arm/plat-samsung/platformdata.c:44-98 | NULL on missing data or failed allocation, device untouched; otherwise the edited clone, installed in the device |
| PlatformData.SdhciMerge | arch/arm/plat-samsung/platformdata.c:99-118 | card-detect fields copied; width and gpio setup taken from the board only when non-zero; each caps word is exactly the union of both, so no bit is lost or invented; every other field of the target is kept |
| PlatformData.SdhciMergeIdempotent | arch/arm/plat-samsung/platformdata.c:99-118 | merging the same board data a second time changes nothing |
| PlatformData.SdhciAddCaps | arch/arm/plat-samsung/platformdata.c:112-117 | each caps word of the target gains the board's bits; every other field is unchanged |
| PlatformData.SdhciSetPlatdata | arch/arm/plat-samsung/platformdata.c:99-118 | the target ends as SdhciMerge of both old values, its fields outside the merge are unchanged, and the board data is unchanged unless it is the target itself |

## Left out

- Logging (`dev_dbg`, `dev_err`, `printk`) has no observable effect here and is not modelled.
- V4L2 and media-controller bookkeeping is not modelled: `v4l2_i2c_subdev_init`, the subdev name, ops tables, pad flags, entity type, `ov2655_remove` and module registration. `media_entity_init` appears only through its result.
- `ov2655_open` is left out: it only fetches a try-format from the file handle, which belongs to the V4L2 core, and applies `GetDefaultFormat` to it.
- The contents of the `ov2655_init_reg` table are a parameter (`initReg`). The model covers the write loop, not the sensor's register values.
- `include/media/ov2655.h` names other platform-data fields than the ones the driver reads (`gpio_pwdn`, `gpio_reset`). The model follows the driver.
- Ov2655.Probe: a NULL `platform_data` pointer, which the driver would dereference, is not modelled: platform data is always a value.
- Ov2655.Sensor.PowerOnAndReset: the PWDN level after power-on is stated only when PWDN and RST are different lines. With one shared line, the last write (reset high) wins.
- Ov2655.PowerOnLevels: the PWDN level is stated only for distinct PWDN and RST lines, as above.
- Ov2655.Sensor.ReadId: levels are stated only for distinct PWDN and RST lines, as above.
- Ov2655.ReadIdLevels: requires distinct PWDN and RST lines, for the same reason.
- Ov2655.Sensor.SPower: levels are stated only for distinct PWDN and RST lines, as above.
- Ov2655.PowerOnThenInitLevels: requires distinct PWDN and RST lines, for the same reason.
- Ov2655.SPowerOutcome: requires distinct PWDN and RST lines, for the same reason.
- Ov2655.Sensor.I2cWrite: the message's `flags` are taken as 0, a plain write. The source declares `struct i2c_msg msg` on the stack and sets only `addr`, `len` and `buf` (ov2655.c:107, 114-116), so `flags` is uninitialised there. Whether the transfer really is a write, and not a read (`I2C_M_RD`), depends on what happens to be on the stack.
- Sleeps are trace events with their durations, not elapsed time.
- In the LED driver, these are outside the model:
  - `s5pv210_led_remove`;
  - the sysfs attribute group;
  - the LED class device fields;
  - `led_classdev_register`, whose result is a parameter;
  - the platform driver registration.
- LedsS5pv210.Probe: a NULL `platform_data` pointer, which the driver dereferences without a check (leds-s5pv210.c:122, 136, 142), is not modelled: platform data is always a value.
- LED brightness is an unbounded integer, of which only "zero or not" matters.
- LED probe: the result of `sysfs_create_group` is overwritten in the source without a check, so it is not a parameter.
- PlatformData.Clone: `pdsize` is not modelled. The copy is the whole structure value, not a byte count of it.
- PlatformData.Fb0Layout: frame size and region starts use unbounded integers. The source's `int frame_size` and `phys_addr_t` sums would wrap on overflow.
- PlatformData.Fb0SetPlatdata: requires the default window and `nr_wins` to fit the per-window arrays. The source does not check this, and an out-of-range index there is undefined behaviour. A NULL `win[0]` is likewise not modelled.
- PlatformData.Fb0NoOverlap: stated only for a non-negative overlay buffer count. A negative `CONFIG_FB_S3C_NUM_BUF_OVLY_WIN` gives negative region sizes.
- SDHCI capability words are sets of bit positions 0..31, with `|=` as union and "non-zero" as "non-empty". This is exact for 32-bit words. Function pointers are numbers, with 0 for NULL.
