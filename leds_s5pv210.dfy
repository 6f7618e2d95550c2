/** The S5PV210 GPIO LED driver: how a brightness value becomes a level and
    a direction on the LED's pin.

    The pin is a latch value plus a direction. Every GPIO call the driver
    makes is recorded as an operation, and the pin is always the result of
    running the recorded operations from the pin as it was at probe time. */
module LedsS5pv210 {
  import opened Errno

  /** Platform-data flags. */
  const ACTLOW: bv32 := 1      // the LED is lit when the pin is low
  const TRISTATE: bv32 := 2    // turn the LED off by making the pin an input

  /** `struct s5pv210_led_platdata`. */
  datatype LedPlatdata = LedPlatdata(gpio: nat, flags: bv32, name: string, defTrigger: string)

  datatype Direction = Input | Output

  /** The LED's pin: the value last written to it and whether it drives. */
  datatype Pin = Pin(value: int, dir: Direction)

  datatype GpioOp =
    | Request(gpio: nat, name: string)
    | SetValue(gpio: nat, value: int)
    | DirectionOutput(gpio: nat, value: int)
    | DirectionInput(gpio: nat)

  function Apply(p: Pin, op: GpioOp): Pin
  {
    match op
    case Request(_, _) => p
    case SetValue(_, v) => p.(value := v)
    case DirectionOutput(_, v) => Pin(v, Output)
    case DirectionInput(_) => p.(dir := Input)
  }

  /** The pin after the operations in `ops`, applied in order. */
  function Run(p: Pin, ops: seq<GpioOp>): Pin
  {
    if ops == [] then p else Apply(Run(p, ops[..|ops| - 1]), ops[|ops| - 1])
  }

  lemma {:induction false} RunAppend(p: Pin, a: seq<GpioOp>, b: seq<GpioOp>)
    ensures Run(p, a + b) == Run(Run(p, a), b)
  {
    if b == [] {
      assert a + b == a;
    } else {
      assert (a + b)[..|a + b| - 1] == a + b[..|b| - 1];
      RunAppend(p, a, b[..|b| - 1]);
    }
  }

  lemma RunShort(p: Pin, a: GpioOp, b: GpioOp)
    ensures Run(p, [a]) == Apply(p, a)
    ensures Run(p, [a, b]) == Apply(Apply(p, a), b)
  {
    assert [a][..0] == [];
    assert [a, b][..1] == [a];
  }

  /** The level that `s5pv210_led_set` drives: `(value != 0) ^ ACTLOW`. */
  function StateFor(value: int, flags: bv32): (s: int)
    ensures s == 0 || s == 1
    ensures flags & ACTLOW != 0 ==> (s == 1 <==> value == 0)
    ensures flags & ACTLOW == 0 ==> (s == 1 <==> value != 0)
  {
    ((if value != 0 then 1 else 0) as bv32 ^ (flags & ACTLOW)) as int
  }

  /** The GPIO calls of `s5pv210_led_set`: the level is written first; in
      tristate mode the pin then becomes an output (lit) or an input (off). */
  function SetOps(pd: LedPlatdata, value: int): (ops: seq<GpioOp>)
    ensures |ops| == if pd.flags & TRISTATE != 0 then 2 else 1
    ensures ops[0] == SetValue(pd.gpio, StateFor(value, pd.flags))
    ensures pd.flags & TRISTATE != 0 ==>
      ops[1] == if value != 0 then DirectionOutput(pd.gpio, ops[0].value) else DirectionInput(pd.gpio)
  {
    var state := StateFor(value, pd.flags);
    [SetValue(pd.gpio, state)]
    + if pd.flags & TRISTATE == 0 then []
      else if value != 0 then [DirectionOutput(pd.gpio, state)]
      else [DirectionInput(pd.gpio)]
  }

  /** The pin after `s5pv210_led_set(value)`. */
  function SetEffect(pd: LedPlatdata, p: Pin, value: int): (r: Pin)
    ensures r.value == StateFor(value, pd.flags)
    ensures pd.flags & TRISTATE == 0 ==> r.dir == p.dir
    ensures pd.flags & TRISTATE != 0 ==> r.dir == if value != 0 then Output else Input
  {
    var ops := SetOps(pd, value);
    RunShort(p, ops[0], ops[|ops| - 1]);
    assert ops == if |ops| == 1 then [ops[0]] else [ops[0], ops[1]];
    Run(p, ops)
  }

  /** Setting the same brightness twice is the same as setting it once. */
  lemma SetIdempotent(pd: LedPlatdata, p: Pin, value: int)
    ensures SetEffect(pd, SetEffect(pd, p, value), value) == SetEffect(pd, p, value)
  {
  }

  /** The GPIO calls of a successful `s5pv210_led_probe`: request the line,
      then make it an input (tristate) or an output at the "off" level. */
  function ProbeOps(pd: LedPlatdata): seq<GpioOp>
  {
    [Request(pd.gpio, "S5PV210_LED")]
    + if pd.flags & TRISTATE != 0 then [DirectionInput(pd.gpio)]
      else [DirectionOutput(pd.gpio, if pd.flags & ACTLOW != 0 then 1 else 0)]
  }

  /** Probe leaves the LED off: an input in tristate mode, otherwise an
      output at the level `set(0)` drives, so that `set(0)` right after
      probe changes nothing but, in tristate mode, the latched value. */
  lemma ProbeIsOff(pd: LedPlatdata, p: Pin)
    ensures var q := Run(p, ProbeOps(pd));
      (pd.flags & TRISTATE != 0 ==> q.dir == Input && q.value == p.value) &&
      (pd.flags & TRISTATE == 0 ==> q == Pin(StateFor(0, pd.flags), Output)) &&
      SetEffect(pd, q, 0).dir == q.dir &&
      (pd.flags & TRISTATE == 0 ==> SetEffect(pd, q, 0) == q)
  {
    var ops := ProbeOps(pd);
    RunShort(p, ops[0], ops[1]);
    assert ops == [ops[0], ops[1]];
  }

  class GpioLed {
    const pdata: LedPlatdata
    /** The pin as it was when the driver first touched it. */
    ghost const pin0: Pin
    /** The pin now. */
    var pin: Pin
    /** Every GPIO call made for this LED, in order. */
    var ops: seq<GpioOp>

    ghost predicate Valid()
      reads this
    {
      pin == Run(pin0, ops)
    }

    /** The zero-filled driver structure, bound to its platform data. */
    constructor (pdata: LedPlatdata, pin0: Pin)
      ensures Valid() && this.pdata == pdata && this.pin0 == pin0
      ensures pin == pin0 && ops == []
    {
      this.pdata := pdata;
      this.pin0 := pin0;
      pin := pin0;
      ops := [];
    }

    /** Records one GPIO call and applies it to the pin. */
    method Issue(op: GpioOp)
      requires Valid()
      modifies this
      ensures Valid()
      ensures ops == old(ops) + [op] && pin == Apply(old(pin), op)
    {
      assert (ops + [op])[..|ops|] == ops;
      ops := ops + [op];
      pin := Apply(pin, op);
    }

    /** `s5pv210_led_set`. */
    method Set(value: int)
      requires Valid()
      modifies this
      ensures Valid()
      ensures ops == old(ops) + SetOps(pdata, value)
      ensures pin == SetEffect(pdata, old(pin), value)
    {
      var state := StateFor(value, pdata.flags);
      Issue(SetValue(pdata.gpio, state));
      if pdata.flags & TRISTATE != 0 {
        if value != 0 {
          Issue(DirectionOutput(pdata.gpio, state));
        } else {
          Issue(DirectionInput(pdata.gpio));
        }
      }
      RunAppend(old(pin), [], SetOps(pdata, value));
      assert [] + SetOps(pdata, value) == SetOps(pdata, value);
      assert SetOps(pdata, value)[..1] == [SetOps(pdata, value)[0]];
    }
  }

  /** `s5pv210_led_probe`. `allocOk` says whether the driver structure
      could be allocated, `requestRet` is what `devm_gpio_request` returns
      and `registerRet` what `led_classdev_register` returns; `pin0` is the
      pin before probe. */
  method Probe(pdata: LedPlatdata, pin0: Pin, allocOk: bool, requestRet: int, registerRet: int)
    returns (ret: int, led: GpioLed?)
    ensures !allocOk ==> ret == -ENOMEM && led == null
    ensures allocOk ==> led != null && fresh(led) && led.Valid() && led.pdata == pdata
    ensures allocOk && requestRet < 0 ==>
      ret == requestRet && led.ops == [Request(pdata.gpio, "S5PV210_LED")] && led.pin == pin0
    ensures allocOk && requestRet >= 0 ==>
      ret == registerRet && led.ops == ProbeOps(pdata) && led.pin == Run(pin0, ProbeOps(pdata))
  {
    if !allocOk {
      return -ENOMEM, null;
    }
    led := new GpioLed(pdata, pin0);
    led.Issue(Request(pdata.gpio, "S5PV210_LED"));
    if requestRet < 0 {
      return requestRet, led;
    }
    if pdata.flags & TRISTATE != 0 {
      led.Issue(DirectionInput(pdata.gpio));
    } else {
      led.Issue(DirectionOutput(pdata.gpio, if pdata.flags & ACTLOW != 0 then 1 else 0));
    }
    ret := registerRet;
  }
}
