/** Control core of the OmniVision OV2655 image-sensor driver.

    The hardware is reduced to an event log: every GPIO request, GPIO level
    change, sleep and I2C message the driver issues is appended to the
    sensor's trace, and whatever the bus or the GPIO layer returns is an
    explicit parameter.  Line levels are not stored separately: the level
    of a line is the level of the last GpioOutput event naming it. */
module Ov2655 {
  import opened Wrappers
  import opened Errno

  type Byte = bv8
  type Reg = bv16
  type Bit = x: int | 0 <= x <= 1

  /** One entry of the initial register table `ov2655_init_reg`. */
  datatype RegEntry = RegEntry(reg: Reg, value: Byte)

  /** The two fields of the board's platform data that the driver reads. */
  datatype PlatformData = PlatformData(gpioPwdn: int, gpioReset: int)

  /** Indices into the sensor's `gpios` array (`enum gpio_id`). */
  const GPIO_PWDN: nat := 0
  const GPIO_RST: nat := 1
  const GPIO_NUM: nat := 2

  /** Levels driven by the CAM_PWR_* and CAM_RESET_* macros. */
  const PWR_ENABLE: Bit := 0
  const PWR_DISABLE: Bit := 1
  const RESET_LOW: Bit := 0
  const RESET_HIGH: Bit := 1

  /** Register holding the high byte of the product id. */
  const ID_REG: Reg := 0x300a

  datatype FrameSize = FrameSize(width: nat, height: nat)

  /** The driver's table of supported frame sizes: a single 800x600 entry. */
  const FrameSizes: seq<FrameSize> := [FrameSize(800, 600)]

  /** The media-bus format that `ov2655_get_default_format` fills in; only
      width and height are written, the other fields keep their values. */
  datatype MbusFrameFmt = MbusFrameFmt(width: nat, height: nat, code: nat, field: nat, colorspace: nat)

  datatype I2cMsg = I2cMsg(addr: nat, len: nat, buf: seq<Byte>)

  datatype Event =
    | GpioRequest(gpio: int, name: string)
    | GpioOutput(gpio: int, level: Bit)
    | Sleep(ms: nat)
    | I2cSend(addr: nat, buf: seq<Byte>)
    | I2cRecv(addr: nat, count: nat)
    | I2cTransfer(msgs: seq<I2cMsg>)

  // ---------------------------------------------------------------------
  // Wire format

  /** The two address bytes sent ahead of every register access: high byte
      first, then low byte. */
  function AddrBytes(reg: Reg): (b: seq<Byte>)
    ensures |b| == 2
    // hi * 256 + lo: no term can wrap, because hi and lo are below 256
    ensures (b[0] as Reg) * 256 + (b[1] as Reg) == reg
  {
    [(reg >> 8) as Byte, (reg & 0xff) as Byte]
  }

  /** The single three-byte message a register write sends. */
  function WriteMsg(addr: nat, e: RegEntry): (m: I2cMsg)
    ensures m.addr == addr && m.len == |m.buf| == 3
    ensures m.buf[..2] == AddrBytes(e.reg) && m.buf[2] == e.value
  {
    I2cMsg(addr, 3, AddrBytes(e.reg) + [e.value])
  }

  // ---------------------------------------------------------------------
  // Event sequences issued by each operation

  /** Register read: the address phase, then the one-byte receive, which is
      skipped when the address phase did not transfer two bytes. */
  function ReadEvents(addr: nat, reg: Reg, sendOk: bool): seq<Event>
  {
    [I2cSend(addr, AddrBytes(reg))] + (if sendOk then [I2cRecv(addr, 1)] else [])
  }

  function WriteEvent(addr: nat, e: RegEntry): Event
  {
    I2cTransfer([WriteMsg(addr, e)])
  }

  /** One write per table entry, in table order. */
  function InitEvents(addr: nat, table: seq<RegEntry>): seq<Event>
  {
    seq(|table|, i requires 0 <= i < |table| => WriteEvent(addr, table[i]))
  }

  function PowerOnEvents(pwdn: int, rst: int): seq<Event>
  {
    [ GpioOutput(pwdn, PWR_DISABLE), Sleep(20),
      GpioOutput(pwdn, PWR_ENABLE), Sleep(20),
      GpioOutput(rst, RESET_LOW), Sleep(50),
      GpioOutput(rst, RESET_HIGH), Sleep(15) ]
  }

  function PowerOffEvents(pwdn: int): seq<Event>
  {
    [GpioOutput(pwdn, PWR_DISABLE), Sleep(20)]
  }

  function ReadOk(sendRet: int, recvRet: int): bool
  {
    sendRet == 2 && recvRet == 1
  }

  /** What `ov2655_read_id` issues: power-on, the id read and, only when the
      read succeeded, the register table followed by power-off. */
  function ReadIdEvents(addr: nat, pwdn: int, rst: int, table: seq<RegEntry>,
                        sendRet: int, recvRet: int): seq<Event>
  {
    PowerOnEvents(pwdn, rst) + ReadEvents(addr, ID_REG, sendRet == 2)
    + (if ReadOk(sendRet, recvRet) then InitEvents(addr, table) + PowerOffEvents(pwdn) else [])
  }

  function SPowerEvents(addr: nat, pwdn: int, rst: int, table: seq<RegEntry>, on: int): seq<Event>
  {
    if on != 0 then PowerOnEvents(pwdn, rst) + InitEvents(addr, table) else PowerOffEvents(pwdn)
  }

  function RequestEvents(pdata: PlatformData): seq<Event>
  {
    [GpioRequest(pdata.gpioPwdn, "GPF34"), GpioRequest(pdata.gpioReset, "GPE14")]
  }

  // ---------------------------------------------------------------------
  // Line levels as seen in a trace

  /** The level most recently driven on `gpio`, or None if it never was. */
  function LastLevel(t: seq<Event>, gpio: int): Option<Bit>
  {
    if t == [] then None
    else if t[|t| - 1].GpioOutput? && t[|t| - 1].gpio == gpio then Some(t[|t| - 1].level)
    else LastLevel(t[..|t| - 1], gpio)
  }

  /** No event of `u` drives `gpio`. */
  ghost predicate Untouched(u: seq<Event>, gpio: int)
  {
    forall k :: 0 <= k < |u| ==> !(u[k].GpioOutput? && u[k].gpio == gpio)
  }

  lemma LastLevelSnoc(t: seq<Event>, e: Event, gpio: int)
    ensures LastLevel(t + [e], gpio) == if e.GpioOutput? && e.gpio == gpio then Some(e.level) else LastLevel(t, gpio)
  {
    assert (t + [e])[..|t|] == t;
  }

  /** A trace that never drives `gpio` leaves its level as it was. */
  lemma {:induction false} UntouchedKeepsLevel(t: seq<Event>, u: seq<Event>, gpio: int)
    requires Untouched(u, gpio)
    ensures LastLevel(t + u, gpio) == LastLevel(t, gpio)
  {
    if u == [] {
      assert t + u == t;
    } else {
      assert (t + u)[..|t + u| - 1] == t + u[..|u| - 1];
      UntouchedKeepsLevel(t, u[..|u| - 1], gpio);
    }
  }

  /** Power-on leaves the reset line released and, when the two lines are
      distinct, the sensor powered (PWDN low). */
  lemma PowerOnLevels(t: seq<Event>, pwdn: int, rst: int)
    ensures LastLevel(t + PowerOnEvents(pwdn, rst), rst) == Some(RESET_HIGH)
    ensures pwdn != rst ==> LastLevel(t + PowerOnEvents(pwdn, rst), pwdn) == Some(PWR_ENABLE)
  {
    var p := PowerOnEvents(pwdn, rst);
    assert t + p == (t + p[..7]) + [Sleep(15)];
    assert t + p[..7] == (t + p[..6]) + [GpioOutput(rst, RESET_HIGH)];
    LastLevelSnoc(t + p[..7], Sleep(15), rst);
    LastLevelSnoc(t + p[..6], GpioOutput(rst, RESET_HIGH), rst);
    if pwdn != rst {
      assert t + p == (t + p[..3]) + p[3..];
      assert t + p[..3] == (t + p[..2]) + [GpioOutput(pwdn, PWR_ENABLE)];
      UntouchedKeepsLevel(t + p[..3], p[3..], pwdn);
      LastLevelSnoc(t + p[..2], GpioOutput(pwdn, PWR_ENABLE), pwdn);
    }
  }

  /** Power-off raises PWDN and leaves every other line as it was. */
  lemma PowerOffLevels(t: seq<Event>, pwdn: int, gpio: int)
    ensures LastLevel(t + PowerOffEvents(pwdn), pwdn) == Some(PWR_DISABLE)
    ensures gpio != pwdn ==> LastLevel(t + PowerOffEvents(pwdn), gpio) == LastLevel(t, gpio)
  {
    var p := PowerOffEvents(pwdn);
    assert t + p == (t + [GpioOutput(pwdn, PWR_DISABLE)]) + [Sleep(20)];
    LastLevelSnoc(t + [GpioOutput(pwdn, PWR_DISABLE)], Sleep(20), pwdn);
    LastLevelSnoc(t, GpioOutput(pwdn, PWR_DISABLE), pwdn);
    LastLevelSnoc(t + [GpioOutput(pwdn, PWR_DISABLE)], Sleep(20), gpio);
    LastLevelSnoc(t, GpioOutput(pwdn, PWR_DISABLE), gpio);
  }

  /** Register traffic never changes a line level. */
  lemma BusKeepsLevels(t: seq<Event>, addr: nat, table: seq<RegEntry>, reg: Reg, sendOk: bool, gpio: int)
    ensures LastLevel(t + InitEvents(addr, table), gpio) == LastLevel(t, gpio)
    ensures LastLevel(t + ReadEvents(addr, reg, sendOk), gpio) == LastLevel(t, gpio)
  {
    UntouchedKeepsLevel(t, InitEvents(addr, table), gpio);
    UntouchedKeepsLevel(t, ReadEvents(addr, reg, sendOk), gpio);
  }

  /** A failed id read leaves the sensor powered and out of reset; a
      successful one ends with the sensor powered off. */
  lemma ReadIdLevels(t: seq<Event>, addr: nat, pwdn: int, rst: int, table: seq<RegEntry>,
                     sendRet: int, recvRet: int)
    requires pwdn != rst
    ensures LastLevel(t + ReadIdEvents(addr, pwdn, rst, table, sendRet, recvRet), rst) == Some(RESET_HIGH)
    ensures LastLevel(t + ReadIdEvents(addr, pwdn, rst, table, sendRet, recvRet), pwdn)
         == Some(if ReadOk(sendRet, recvRet) then PWR_DISABLE else PWR_ENABLE)
  {
    var read := ReadEvents(addr, ID_REG, sendRet == 2);
    var powered := t + PowerOnEvents(pwdn, rst) + read;
    PowerOnLevels(t, pwdn, rst);
    UntouchedKeepsLevel(t + PowerOnEvents(pwdn, rst), read, pwdn);
    UntouchedKeepsLevel(t + PowerOnEvents(pwdn, rst), read, rst);
    if ReadOk(sendRet, recvRet) {
      var loaded := powered + InitEvents(addr, table);
      UntouchedKeepsLevel(powered, InitEvents(addr, table), pwdn);
      UntouchedKeepsLevel(powered, InitEvents(addr, table), rst);
      PowerOffLevels(loaded, pwdn, rst);
      assert ReadIdEvents(addr, pwdn, rst, table, sendRet, recvRet)
          == PowerOnEvents(pwdn, rst) + read + InitEvents(addr, table) + PowerOffEvents(pwdn);
      assert t + ReadIdEvents(addr, pwdn, rst, table, sendRet, recvRet) == loaded + PowerOffEvents(pwdn);
    } else {
      assert ReadIdEvents(addr, pwdn, rst, table, sendRet, recvRet) == PowerOnEvents(pwdn, rst) + read;
      assert t + ReadIdEvents(addr, pwdn, rst, table, sendRet, recvRet) == powered;
    }
  }

  /** A failed id read issues no register write: only the power-on
      sequence and the id read itself. */
  lemma ReadIdFailureWritesNothing(addr: nat, pwdn: int, rst: int, table: seq<RegEntry>,
                                   sendRet: int, recvRet: int)
    requires !ReadOk(sendRet, recvRet)
    ensures var u := ReadIdEvents(addr, pwdn, rst, table, sendRet, recvRet);
      u[..8] == PowerOnEvents(pwdn, rst) && u[8] == I2cSend(addr, AddrBytes(ID_REG)) &&
      forall k :: 0 <= k < |u| ==> !u[k].I2cTransfer?
  {
  }

  lemma PowerOnThenInitLevels(t: seq<Event>, addr: nat, pwdn: int, rst: int, table: seq<RegEntry>)
    requires pwdn != rst
    ensures LastLevel(t + PowerOnEvents(pwdn, rst) + InitEvents(addr, table), pwdn) == Some(PWR_ENABLE)
    ensures LastLevel(t + PowerOnEvents(pwdn, rst) + InitEvents(addr, table), rst) == Some(RESET_HIGH)
  {
    PowerOnLevels(t, pwdn, rst);
    UntouchedKeepsLevel(t + PowerOnEvents(pwdn, rst), InitEvents(addr, table), pwdn);
    UntouchedKeepsLevel(t + PowerOnEvents(pwdn, rst), InitEvents(addr, table), rst);
  }

  /** s_power(on) leaves the sensor powered and out of reset after writing
      the table; s_power(0) powers it down and leaves reset alone. */
  lemma SPowerOutcome(t: seq<Event>, addr: nat, pwdn: int, rst: int, table: seq<RegEntry>, on: int)
    requires pwdn != rst
    ensures LastLevel(t + SPowerEvents(addr, pwdn, rst, table, on), pwdn)
         == Some(if on != 0 then PWR_ENABLE else PWR_DISABLE)
    ensures LastLevel(t + SPowerEvents(addr, pwdn, rst, table, on), rst)
         == if on != 0 then Some(RESET_HIGH) else LastLevel(t, rst)
  {
    if on != 0 {
      PowerOnThenInitLevels(t, addr, pwdn, rst, table);
      assert t + SPowerEvents(addr, pwdn, rst, table, on)
          == t + PowerOnEvents(pwdn, rst) + InitEvents(addr, table);
    } else {
      PowerOffLevels(t, pwdn, rst);
    }
  }

  /** `ov2655_get_default_format`: width and height from the single
      frame-size entry, every other field untouched. */
  function GetDefaultFormat(mf: MbusFrameFmt): (r: MbusFrameFmt)
    ensures r.width == 800 && r.height == 600
    ensures r.code == mf.code && r.field == mf.field && r.colorspace == mf.colorspace
  {
    mf.(width := FrameSizes[0].width, height := FrameSizes[0].height)
  }

  // ---------------------------------------------------------------------
  // The driver state

  class Sensor {
    /** `client->addr`: the sensor's I2C address. */
    const addr: nat
    /** The initial register table `ov2655_init_reg`. */
    const initReg: seq<RegEntry>
    /** `gpios[GPIO_NUM]`: the PWDN and RST line numbers. */
    const gpios: array<int>
    /** Everything the driver has issued to the hardware so far. */
    var trace: seq<Event>

    ghost predicate Valid()
      reads this
    {
      gpios.Length == GPIO_NUM
    }

    function PwdnLevel(): Option<Bit>
      reads this, gpios
      requires Valid()
    {
      LastLevel(trace, gpios[GPIO_PWDN])
    }

    function RstLevel(): Option<Bit>
      reads this, gpios
      requires Valid()
    {
      LastLevel(trace, gpios[GPIO_RST])
    }

    /** The zero-filled driver structure of a freshly allocated device. */
    constructor (addr: nat, initReg: seq<RegEntry>)
      ensures Valid() && fresh(gpios)
      ensures this.addr == addr && this.initReg == initReg
      ensures gpios[..] == [0, 0] && trace == []
    {
      this.addr := addr;
      this.initReg := initReg;
      gpios := new int[GPIO_NUM](_ => 0);
      trace := [];
    }

    // Hardware primitives: each appends the one event it stands for.

    method GpioDirectionOutput(gpio: int, level: Bit)
      modifies this
      ensures trace == old(trace) + [GpioOutput(gpio, level)]
    {
      trace := trace + [GpioOutput(gpio, level)];
    }

    method Msleep(ms: nat)
      modifies this
      ensures trace == old(trace) + [Sleep(ms)]
    {
      trace := trace + [Sleep(ms)];
    }

    /** `ov2655_configure_gpios`: take the line numbers from the platform
        data and request both lines; a failed request is only logged. */
    method ConfigureGpios(pdata: PlatformData, pwdnRequestRet: int, rstRequestRet: int) returns (ret: int)
      requires Valid()
      modifies this, gpios
      ensures Valid() && ret == 0
      ensures gpios[GPIO_PWDN] == pdata.gpioPwdn && gpios[GPIO_RST] == pdata.gpioReset
      ensures trace == old(trace) + RequestEvents(pdata)
    {
      gpios[GPIO_PWDN] := pdata.gpioPwdn;
      gpios[GPIO_RST] := pdata.gpioReset;
      trace := trace + [GpioRequest(gpios[GPIO_PWDN], "GPF34")];
      trace := trace + [GpioRequest(gpios[GPIO_RST], "GPE14")];
      ret := 0;
    }

    /** `ov2655_i2c_read`: `sendRet` and `recvRet` are what
        `i2c_master_send` and `i2c_master_recv` return, `recvByte` the
        byte the receive delivers. */
    method I2cRead(reg: Reg, sendRet: int, recvRet: int, recvByte: Byte) returns (ret: int, value: Option<Byte>)
      modifies this
      ensures ret == (if ReadOk(sendRet, recvRet) then 0 else -1)
      ensures value == if ReadOk(sendRet, recvRet) then Some(recvByte) else None
      ensures trace == old(trace) + ReadEvents(addr, reg, sendRet == 2)
    {
      var data := new Byte[2];
      data[0] := (reg >> 8) as Byte;
      data[1] := (reg & 0xff) as Byte;
      assert data[..] == AddrBytes(reg);
      trace := trace + [I2cSend(addr, data[..])];
      if sendRet != 2 {
        return -1, None;
      }
      trace := trace + [I2cRecv(addr, 1)];
      if recvRet != 1 {
        return -1, None;
      }
      return 0, Some(recvByte);
    }

    /** `ov2655_i2c_write`: one three-byte message; a transfer count other
        than 1 is only logged, and the result is always 0. */
    method I2cWrite(reg: Reg, value: Byte, transferRet: int) returns (ret: int)
      modifies this
      ensures ret == 0
      ensures trace == old(trace) + [WriteEvent(addr, RegEntry(reg, value))]
    {
      var data := new Byte[3];
      data[0] := (reg >> 8) as Byte;
      data[1] := (reg & 0xff) as Byte;
      data[2] := value;
      var msg := I2cMsg(addr, 3, data[..]);
      assert msg == WriteMsg(addr, RegEntry(reg, value));
      trace := trace + [I2cTransfer([msg])];
      ret := 0;
    }

    /** `ov2655_power_on_and_reset`. */
    method PowerOnAndReset()
      requires Valid()
      modifies this
      ensures Valid()
      ensures trace == old(trace) + PowerOnEvents(gpios[GPIO_PWDN], gpios[GPIO_RST])
      ensures RstLevel() == Some(RESET_HIGH)
      ensures gpios[GPIO_PWDN] != gpios[GPIO_RST] ==> PwdnLevel() == Some(PWR_ENABLE)
    {
      GpioDirectionOutput(gpios[GPIO_PWDN], PWR_DISABLE);
      Msleep(20);
      GpioDirectionOutput(gpios[GPIO_PWDN], PWR_ENABLE);
      Msleep(20);
      GpioDirectionOutput(gpios[GPIO_RST], RESET_LOW);
      Msleep(50);
      GpioDirectionOutput(gpios[GPIO_RST], RESET_HIGH);
      Msleep(15);
      PowerOnLevels(old(trace), gpios[GPIO_PWDN], gpios[GPIO_RST]);
    }

    /** `ov2655_power_off`. */
    method PowerOff()
      requires Valid()
      modifies this
      ensures Valid()
      ensures trace == old(trace) + PowerOffEvents(gpios[GPIO_PWDN])
      ensures PwdnLevel() == Some(PWR_DISABLE)
      ensures gpios[GPIO_PWDN] != gpios[GPIO_RST] ==> RstLevel() == old(RstLevel())
    {
      GpioDirectionOutput(gpios[GPIO_PWDN], PWR_DISABLE);
      Msleep(20);
      PowerOffLevels(old(trace), gpios[GPIO_PWDN], gpios[GPIO_RST]);
    }

    /** `ov2655_reg_init`: one write per table entry, in order, whatever
        each transfer returned. `transferRets[i]` is the result of the
        i-th transfer. */
    method RegInit(transferRets: seq<int>)
      requires Valid() && |transferRets| == |initReg|
      modifies this
      ensures Valid()
      ensures trace == old(trace) + InitEvents(addr, initReg)
    {
      var i := 0;
      while i < |initReg|
        invariant 0 <= i <= |initReg|
        invariant trace == old(trace) + InitEvents(addr, initReg[..i])
      {
        var _ := I2cWrite(initReg[i].reg, initReg[i].value, transferRets[i]);
        assert InitEvents(addr, initReg[..i + 1]) == InitEvents(addr, initReg[..i]) + [WriteEvent(addr, initReg[i])];
        i := i + 1;
      }
      assert initReg[..i] == initReg;
    }

    /** `ov2655_read_id`: power on, read the id register and, only if that
        read succeeded, load the table and power off again. The id byte is
        not compared with anything. */
    method ReadId(sendRet: int, recvRet: int, recvByte: Byte, transferRets: seq<int>) returns (ret: int)
      requires Valid() && |transferRets| == |initReg|
      modifies this
      ensures Valid()
      ensures ret == if ReadOk(sendRet, recvRet) then 0 else -1
      ensures trace == old(trace) + ReadIdEvents(addr, gpios[GPIO_PWDN], gpios[GPIO_RST], initReg, sendRet, recvRet)
      ensures gpios[GPIO_PWDN] != gpios[GPIO_RST] ==>
        RstLevel() == Some(RESET_HIGH) &&
        PwdnLevel() == Some(if ReadOk(sendRet, recvRet) then PWR_DISABLE else PWR_ENABLE)
    {
      ghost var t0 := trace;
      PowerOnAndReset();
      var r, pid := I2cRead(ID_REG, sendRet, recvRet, recvByte);
      if r >= 0 {
        RegInit(transferRets);
        PowerOff();
      }
      if gpios[GPIO_PWDN] != gpios[GPIO_RST] {
        ReadIdLevels(t0, addr, gpios[GPIO_PWDN], gpios[GPIO_RST], initReg, sendRet, recvRet);
      }
      return if r < 0 then -1 else 0;
    }

    /** `ov2655_s_power`. */
    method SPower(on: int, transferRets: seq<int>) returns (ret: int)
      requires Valid() && |transferRets| == |initReg|
      modifies this
      ensures Valid() && ret == 0
      ensures trace == old(trace) + SPowerEvents(addr, gpios[GPIO_PWDN], gpios[GPIO_RST], initReg, on)
      ensures gpios[GPIO_PWDN] != gpios[GPIO_RST] ==>
        PwdnLevel() == Some(if on != 0 then PWR_ENABLE else PWR_DISABLE) &&
        RstLevel() == if on != 0 then Some(RESET_HIGH) else old(RstLevel())
    {
      ghost var t0 := trace;
      if on != 0 {
        PowerOnAndReset();
        RegInit(transferRets);
      } else {
        PowerOff();
      }
      if gpios[GPIO_PWDN] != gpios[GPIO_RST] {
        SPowerOutcome(t0, addr, gpios[GPIO_PWDN], gpios[GPIO_RST], initReg, on);
      }
      return 0;
    }

    /** `ov2655_s_stream`: only logs. */
    method SStream(on: int) returns (ret: int)
      ensures ret == 0
    {
      ret := 0;
    }

    /** `ov2655_set_fmt`: accepts any format and changes nothing. */
    method SetFmt(fmt: MbusFrameFmt) returns (ret: int)
      ensures ret == 0
    {
      ret := 0;
    }
  }

  /** `ov2655_probe`. `allocOk` says whether the driver structure could be
      allocated, `mediaRet` is what `media_entity_init` returns, and the
      remaining parameters are the bus results for the id check. */
  method Probe(addr: nat, pdata: PlatformData, initReg: seq<RegEntry>, allocOk: bool,
               pwdnRequestRet: int, rstRequestRet: int, mediaRet: int,
               sendRet: int, recvRet: int, recvByte: Byte, transferRets: seq<int>)
    returns (ret: int, s: Sensor?)
    requires |transferRets| == |initReg|
    ensures !allocOk ==> ret == -ENOMEM && s == null
    ensures allocOk ==> s != null && fresh(s) && fresh(s.gpios) && s.Valid()
    ensures s != null ==> s.addr == addr && s.initReg == initReg
    ensures s != null ==> s.gpios[GPIO_PWDN] == pdata.gpioPwdn && s.gpios[GPIO_RST] == pdata.gpioReset
    ensures s != null && mediaRet < 0 ==> ret == mediaRet && s.trace == RequestEvents(pdata)
    ensures s != null && mediaRet >= 0 ==>
      ret == (if ReadOk(sendRet, recvRet) then 0 else -1) &&
      s.trace == RequestEvents(pdata) + ReadIdEvents(addr, pdata.gpioPwdn, pdata.gpioReset, initReg, sendRet, recvRet)
  {
    if !allocOk {
      return -ENOMEM, null;
    }
    s := new Sensor(addr, initReg);
    ret := s.ConfigureGpios(pdata, pwdnRequestRet, rstRequestRet);
    if ret < 0 {
      return;
    }
    if mediaRet < 0 {
      return mediaRet, s;
    }
    ret := s.ReadId(sendRet, recvRet, recvByte, transferRets);
  }
}
