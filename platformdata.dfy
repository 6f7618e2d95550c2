/** Samsung platform-data helpers: cloning a board's platform data into a
    device, laying out the framebuffer's contiguous memory for window 0's
    device, and merging SDHCI settings. */
module PlatformData {
  import opened Wrappers

  /** The part of `struct platform_device` these helpers touch. */
  class PlatformDevice<T> {
    const name: string
    var platformData: Option<T>

    constructor (name: string, platformData: Option<T>)
      ensures this.name == name && this.platformData == platformData
    {
      this.name := name;
      this.platformData := platformData;
    }
  }

  /** The null check and `kmemdup` shared by both clone helpers: no copy
      without data or when the allocation fails, else an exact copy. */
  function Clone<T>(pd: Option<T>, allocOk: bool): (npd: Option<T>)
    ensures npd.Some? <==> pd.Some? && allocOk
    ensures npd.Some? ==> npd.value == pd.value
  {
    if pd.None? || !allocOk then None else pd
  }

  /** `s3c_set_platdata`: on success the device's platform data is the
      copy, which is returned; otherwise the device is left alone. */
  method SetPlatdata<T>(pd: Option<T>, pdev: PlatformDevice<T>, allocOk: bool) returns (npd: Option<T>)
    modifies pdev
    ensures npd == Clone(pd, allocOk)
    ensures pdev.platformData == if npd.Some? then npd else old(pdev.platformData)
  {
    if pd.None? {
      return None;
    }
    npd := Clone(pd, allocOk);
    if npd.None? {
      return None;
    }
    pdev.platformData := npd;
  }

  // -----------------------------------------------------------------------
  // Framebuffer

  /** The resolution of a framebuffer window (`struct s3c_fb_pd_win`). */
  datatype FbWin = FbWin(xres: nat, yres: nat)

  /** `struct s3c_fb_platdata`, as far as `s3c_fb0_set_platdata` reads or
      writes it. `win0` stands for `*win[0]`; the three per-window arrays
      have one entry per hardware window; `rest` is every other field. */
  datatype FbPlatdata = FbPlatdata(
    win0: FbWin,
    nrWins: nat,
    defaultWin: int,
    nrBuffers: seq<int>,
    pmemStart: seq<int>,
    pmemSize: seq<int>,
    rest: seq<int>)

  /** The CONFIG_FB_S3C_* build settings the layout depends on. */
  datatype FbConfig = FbConfig(numOvlyWin: int, numBufOvlyWin: int, nrBuffers: int)

  /** The window counts and the default window fit the per-window arrays. */
  ghost predicate FbWellFormed(pd: FbPlatdata)
  {
    |pd.nrBuffers| == |pd.pmemStart| == |pd.pmemSize| &&
    pd.nrWins <= |pd.nrBuffers| &&
    0 <= pd.defaultWin < |pd.nrBuffers|
  }

  /** The overlay count actually used: dropped to 0 when it exceeds the
      default window. */
  function OverlayCount(cfg: FbConfig, defaultWin: int): (n: int)
    ensures n <= defaultWin || n <= 0
    ensures n == 0 || n == cfg.numOvlyWin
    ensures cfg.numOvlyWin <= defaultWin ==> n == cfg.numOvlyWin
    ensures cfg.numOvlyWin > defaultWin ==> n == 0
  {
    if cfg.numOvlyWin > defaultWin then 0 else cfg.numOvlyWin
  }

  function FrameSize(pd: FbPlatdata): int
  {
    pd.win0.xres * pd.win0.yres * 4
  }

  /** The buffers each window ends up with. */
  function BuffersOf(pd: FbPlatdata, cfg: FbConfig, i: nat): int
    requires i < |pd.nrBuffers|
  {
    if i == pd.defaultWin then cfg.nrBuffers
    else if i < OverlayCount(cfg, pd.defaultWin) then cfg.numBufOvlyWin
    else if i < pd.nrWins then 1
    else pd.nrBuffers[i]
  }

  /** Whether the layout assigns a memory region to window `i`. */
  predicate HasRegion(pd: FbPlatdata, cfg: FbConfig, i: nat)
  {
    i == pd.defaultWin || i < OverlayCount(cfg, pd.defaultWin)
  }

  /** Where window `i`'s region starts: the overlays back to back from the
      bank base, then the default window. */
  function StartOf(pd: FbPlatdata, cfg: FbConfig, base: int, i: nat): int
    requires i < |pd.pmemStart|
  {
    var ov := OverlayCount(cfg, pd.defaultWin);
    if i == pd.defaultWin then base + (if ov > 0 then ov else 0) * (FrameSize(pd) * cfg.numBufOvlyWin)
    else if i < ov then base + i * (FrameSize(pd) * cfg.numBufOvlyWin)
    else pd.pmemStart[i]
  }

  function SizeOf(pd: FbPlatdata, cfg: FbConfig, i: nat): int
    requires i < |pd.pmemSize| == |pd.nrBuffers|
  {
    if HasRegion(pd, cfg, i) then FrameSize(pd) * BuffersOf(pd, cfg, i) else pd.pmemSize[i]
  }

  /** The platform data `s3c_fb0_set_platdata` leaves behind, given the
      copied data, the build settings and the memory bank's base. */
  function Fb0Layout(pd: FbPlatdata, cfg: FbConfig, base: int): (r: FbPlatdata)
    requires FbWellFormed(pd)
    ensures FbWellFormed(r) && |r.nrBuffers| == |pd.nrBuffers|
  {
    var n := |pd.nrBuffers|;
    pd.(nrBuffers := seq(n, i requires 0 <= i < n => BuffersOf(pd, cfg, i)),
        pmemStart := seq(n, i requires 0 <= i < n => StartOf(pd, cfg, base, i)),
        pmemSize := seq(n, i requires 0 <= i < n => SizeOf(pd, cfg, i)))
  }

  function Sum(s: seq<int>): int
  {
    if s == [] then 0 else Sum(s[..|s| - 1]) + s[|s| - 1]
  }

  /** Which windows get how many buffers: the default window its own
      count, the overlays theirs, the other configured windows one, and
      the windows beyond `nr_wins` keep what was copied. */
  lemma Fb0BufferCounts(pd: FbPlatdata, cfg: FbConfig, base: int)
    requires FbWellFormed(pd)
    ensures var r := Fb0Layout(pd, cfg, base); var ov := OverlayCount(cfg, pd.defaultWin);
      FbWellFormed(r) &&
      r.nrBuffers[pd.defaultWin] == cfg.nrBuffers &&
      (forall i :: 0 <= i < ov ==> r.nrBuffers[i] == cfg.numBufOvlyWin) &&
      (forall i :: 0 <= i < pd.nrWins && ov <= i && i != pd.defaultWin ==> r.nrBuffers[i] == 1) &&
      (forall i :: pd.nrWins <= i < |r.nrBuffers| && i >= ov && i != pd.defaultWin ==>
         r.nrBuffers[i] == pd.nrBuffers[i])
  {
  }

  /** Each region holds exactly its window's buffers of one frame each. */
  lemma Fb0SizesMatchBuffers(pd: FbPlatdata, cfg: FbConfig, base: int)
    requires FbWellFormed(pd)
    ensures var r := Fb0Layout(pd, cfg, base);
      forall i :: 0 <= i < |r.pmemSize| && HasRegion(pd, cfg, i) ==>
        r.pmemSize[i] == pd.win0.xres * pd.win0.yres * 4 * r.nrBuffers[i]
  {
  }

  lemma {:induction false} SumOfEqual(s: seq<int>, step: int)
    requires forall i :: 0 <= i < |s| ==> s[i] == step
    ensures Sum(s) == |s| * step
  {
    if s != [] {
      SumOfEqual(s[..|s| - 1], step);
    }
  }

  /** The regions are laid out back to back: the first overlay at the bank
      base, each overlay right after the previous one, and the default
      window right after the last overlay. */
  lemma Fb0Contiguous(pd: FbPlatdata, cfg: FbConfig, base: int)
    requires FbWellFormed(pd)
    ensures var r := Fb0Layout(pd, cfg, base); var ov := OverlayCount(cfg, pd.defaultWin);
      (HasRegion(pd, cfg, 0) ==> r.pmemStart[0] == base) &&
      (forall i :: 0 <= i && i + 1 < ov ==> r.pmemStart[i + 1] == r.pmemStart[i] + r.pmemSize[i]) &&
      (ov > 0 ==> r.pmemStart[pd.defaultWin] == r.pmemStart[ov - 1] + r.pmemSize[ov - 1])
  {
    var r := Fb0Layout(pd, cfg, base);
    var ov := OverlayCount(cfg, pd.defaultWin);
    var step := FrameSize(pd) * cfg.numBufOvlyWin;
    forall i | 0 <= i && i + 1 < ov
      ensures r.pmemStart[i + 1] == r.pmemStart[i] + r.pmemSize[i]
    {
      assert r.pmemSize[i] == step;
      assert (i + 1) * step == i * step + step;
    }
    if ov > 0 {
      assert r.pmemSize[ov - 1] == step;
      assert ov * step == (ov - 1) * step + step;
    }
  }

  /** The default window starts at the bank base plus the sizes of all the
      overlay regions before it. */
  lemma Fb0DefaultAfterOverlays(pd: FbPlatdata, cfg: FbConfig, base: int)
    requires FbWellFormed(pd)
    ensures var r := Fb0Layout(pd, cfg, base); var ov := OverlayCount(cfg, pd.defaultWin);
      r.pmemStart[pd.defaultWin] == base + Sum(r.pmemSize[..if ov > 0 then ov else 0])
  {
    var r := Fb0Layout(pd, cfg, base);
    var ov := OverlayCount(cfg, pd.defaultWin);
    var m := if ov > 0 then ov else 0;
    var step := FrameSize(pd) * cfg.numBufOvlyWin;
    assert forall i :: 0 <= i < m ==> r.pmemSize[..m][i] == step;
    SumOfEqual(r.pmemSize[..m], step);
  }

  lemma MulMonotone(a: int, b: int, c: int)
    requires a <= b && 0 <= c
    ensures a * c <= b * c
  {
  }

  /** No two regions overlap, provided an overlay's buffer count is not
      negative: every region ends at or before the next one starts. */
  lemma Fb0NoOverlap(pd: FbPlatdata, cfg: FbConfig, base: int)
    requires FbWellFormed(pd) && cfg.numBufOvlyWin >= 0
    ensures var r := Fb0Layout(pd, cfg, base);
      forall i, j :: 0 <= i < j < |r.pmemStart| && HasRegion(pd, cfg, i) && HasRegion(pd, cfg, j) ==>
        r.pmemStart[i] + r.pmemSize[i] <= r.pmemStart[j]
  {
    var r := Fb0Layout(pd, cfg, base);
    var step := FrameSize(pd) * cfg.numBufOvlyWin;
    assert step >= 0;
    forall i, j | 0 <= i < j < |r.pmemStart| && HasRegion(pd, cfg, i) && HasRegion(pd, cfg, j)
      ensures r.pmemStart[i] + r.pmemSize[i] <= r.pmemStart[j]
    {
      var ov := OverlayCount(cfg, pd.defaultWin);
      assert i < ov;
      assert (i + 1) * step == i * step + step;
      MulMonotone(i + 1, if j == pd.defaultWin then ov else j, step);
    }
  }

  /** A window that is neither an overlay nor the default window keeps its
      copied region, and nothing but the three per-window arrays changes. */
  lemma Fb0KeepsOthers(pd: FbPlatdata, cfg: FbConfig, base: int)
    requires FbWellFormed(pd)
    ensures var r := Fb0Layout(pd, cfg, base);
      r.win0 == pd.win0 && r.nrWins == pd.nrWins && r.defaultWin == pd.defaultWin && r.rest == pd.rest &&
      forall i :: 0 <= i < |r.pmemStart| && !HasRegion(pd, cfg, i) ==>
        r.pmemStart[i] == pd.pmemStart[i] && r.pmemSize[i] == pd.pmemSize[i]
  {
  }

  /** The buffer-count half of the edit (every window 1 buffer, the
      overlays and then the default window their configured counts), in
      place on the clone's `nr_buffers` array. */
  method AssignBufferCounts(nrBuffers: array<int>, npd: FbPlatdata, cfg: FbConfig)
    requires FbWellFormed(npd) && nrBuffers[..] == npd.nrBuffers
    modifies nrBuffers
    ensures forall k :: 0 <= k < nrBuffers.Length ==> nrBuffers[k] == BuffersOf(npd, cfg, k)
  {
    var n := nrBuffers.Length;
    var i := 0;
    while i < npd.nrWins
      invariant 0 <= i <= npd.nrWins
      invariant forall k :: 0 <= k < n ==> nrBuffers[k] == if k < i then 1 else npd.nrBuffers[k]
    {
      nrBuffers[i] := 1;
      i := i + 1;
    }

    var defaultWin := npd.defaultWin;
    var numOverlayWin := cfg.numOvlyWin;
    if numOverlayWin > defaultWin {
      numOverlayWin := 0;
    }

    i := 0;
    while i < numOverlayWin
      invariant 0 <= i <= if numOverlayWin > 0 then numOverlayWin else 0
      invariant forall k :: 0 <= k < n ==>
        nrBuffers[k] == if k < i then cfg.numBufOvlyWin else if k < npd.nrWins then 1 else npd.nrBuffers[k]
    {
      nrBuffers[i] := cfg.numBufOvlyWin;
      i := i + 1;
    }
    nrBuffers[defaultWin] := cfg.nrBuffers;
  }

  /** The memory half of the edit: the overlays' regions back to back from
      `base` with a running start address, then the default window's. */
  method LayoutRegions(pmemStart: array<int>, pmemSize: array<int>, nrBuffers: array<int>,
                       npd: FbPlatdata, cfg: FbConfig, base: int)
    requires FbWellFormed(npd)
    requires pmemStart[..] == npd.pmemStart && pmemSize[..] == npd.pmemSize
    requires nrBuffers.Length == |npd.nrBuffers|
    requires forall k :: 0 <= k < nrBuffers.Length ==> nrBuffers[k] == BuffersOf(npd, cfg, k)
    requires pmemStart != pmemSize && nrBuffers != pmemStart && nrBuffers != pmemSize
    modifies pmemStart, pmemSize
    ensures forall k :: 0 <= k < pmemStart.Length ==> pmemStart[k] == StartOf(npd, cfg, base, k)
    ensures forall k :: 0 <= k < pmemSize.Length ==> pmemSize[k] == SizeOf(npd, cfg, k)
  {
    var n := pmemStart.Length;
    var defaultWin := npd.defaultWin;
    var numOverlayWin := OverlayCount(cfg, defaultWin);
    var frameSize := npd.win0.xres * npd.win0.yres * 4;
    var start := base;
    ghost var step := frameSize * cfg.numBufOvlyWin;

    var i := 0;
    while i < numOverlayWin
      invariant 0 <= i <= if numOverlayWin > 0 then numOverlayWin else 0
      invariant start == base + i * step
      invariant forall k :: 0 <= k < n ==>
        pmemStart[k] == if k < i then base + k * step else npd.pmemStart[k]
      invariant forall k :: 0 <= k < n ==>
        pmemSize[k] == if k < i then step else npd.pmemSize[k]
    {
      assert nrBuffers[i] == cfg.numBufOvlyWin;
      pmemStart[i] := start;
      pmemSize[i] := frameSize * nrBuffers[i];
      assert pmemSize[i] == step;
      start := start + pmemSize[i];
      assert (i + 1) * step == i * step + step;
      i := i + 1;
    }
    assert start == base + (if numOverlayWin > 0 then numOverlayWin else 0) * step;
    pmemStart[defaultWin] := start;
    pmemSize[defaultWin] := frameSize * nrBuffers[defaultWin];
    assert frameSize == FrameSize(npd);
    forall k | 0 <= k < n
      ensures pmemSize[k] == SizeOf(npd, cfg, k)
    {
      if k != defaultWin && k < numOverlayWin {
        assert BuffersOf(npd, cfg, k) == cfg.numBufOvlyWin;
      }
    }
  }

  /** The editing half of `s3c_fb0_set_platdata`, done in place on the
      clone's arrays. */
  method Fb0EditClone(npd: FbPlatdata, cfg: FbConfig, base: int) returns (r: FbPlatdata)
    requires FbWellFormed(npd)
    ensures FbWellFormed(r)
    ensures r == Fb0Layout(npd, cfg, base)
  {
    var n := |npd.nrBuffers|;
    var nrBuffers := new int[n](i requires 0 <= i < n => npd.nrBuffers[i]);
    var pmemStart := new int[n](i requires 0 <= i < n => npd.pmemStart[i]);
    var pmemSize := new int[n](i requires 0 <= i < n => npd.pmemSize[i]);
    AssignBufferCounts(nrBuffers, npd, cfg);
    LayoutRegions(pmemStart, pmemSize, nrBuffers, npd, cfg, base);
    r := npd.(nrBuffers := nrBuffers[..], pmemStart := pmemStart[..], pmemSize := pmemSize[..]);
  }

  /** `s3c_fb0_set_platdata`: clone as `s3c_set_platdata` does, then edit
      the copy; `bank` is what `s5p_get_media_memory_bank` returns. */
  method Fb0SetPlatdata(pd: Option<FbPlatdata>, pdev: PlatformDevice<FbPlatdata>, allocOk: bool,
                        cfg: FbConfig, bank: int) returns (npd: Option<FbPlatdata>)
    requires pd.Some? ==> FbWellFormed(pd.value)
    modifies pdev
    ensures npd == if Clone(pd, allocOk).Some? then Some(Fb0Layout(pd.value, cfg, bank)) else None
    ensures pdev.platformData == if npd.Some? then npd else old(pdev.platformData)
  {
    if pd.None? {
      return None;
    }
    var copy := Clone(pd, allocOk);
    if copy.None? {
      return None;
    }
    var edited := Fb0EditClone(copy.value, cfg, bank);
    npd := Some(edited);
    pdev.platformData := npd;
  }

  // -----------------------------------------------------------------------
  // SDHCI

  /** A function pointer, identified by a number; 0 is NULL. */
  type FnPtr = nat

  /** A 32-bit capability word, as the set of the positions of its set
      bits: `|=` is union and a word is nonzero when the set is not empty. */
  type BitIndex = i: nat | i < 32
  type Caps = set<BitIndex>

  /** The value of a `struct s3c_sdhci_platdata`: the ten fields the merge
      writes, and `rest` for every other field, which it never touches. */
  datatype SdhciValue = SdhciValue(
    maxWidth: nat,
    hostCaps: Caps,
    hostCaps2: Caps,
    pmCaps: Caps,
    cdType: nat,
    extCdGpio: int,
    extCdGpioInvert: bool,
    extCdInit: FnPtr,
    extCdCleanup: FnPtr,
    cfgGpio: FnPtr,
    rest: seq<int>)

  /** What `s3c_sdhci_set_platdata` makes of `set` given the board's `pd`:
      card-detect settings copied, width and gpio setup taken from `pd`
      only when given, capability bits accumulated without clearing any. */
  function SdhciMerge(pd: SdhciValue, target: SdhciValue): (r: SdhciValue)
    ensures r.cdType == pd.cdType && r.extCdInit == pd.extCdInit && r.extCdCleanup == pd.extCdCleanup
    ensures r.extCdGpio == pd.extCdGpio && r.extCdGpioInvert == pd.extCdGpioInvert
    ensures r.maxWidth == (if pd.maxWidth != 0 then pd.maxWidth else target.maxWidth)
    ensures r.cfgGpio == (if pd.cfgGpio != 0 then pd.cfgGpio else target.cfgGpio)
    ensures target.hostCaps <= r.hostCaps && pd.hostCaps <= r.hostCaps
    ensures target.hostCaps2 <= r.hostCaps2 && pd.hostCaps2 <= r.hostCaps2
    ensures target.pmCaps <= r.pmCaps && pd.pmCaps <= r.pmCaps
    ensures r.hostCaps <= target.hostCaps + pd.hostCaps
    ensures r.hostCaps2 <= target.hostCaps2 + pd.hostCaps2
    ensures r.pmCaps <= target.pmCaps + pd.pmCaps
    ensures r.rest == target.rest
  {
    target.(cdType := pd.cdType, extCdInit := pd.extCdInit, extCdCleanup := pd.extCdCleanup,
            extCdGpio := pd.extCdGpio, extCdGpioInvert := pd.extCdGpioInvert,
            maxWidth := if pd.maxWidth != 0 then pd.maxWidth else target.maxWidth,
            cfgGpio := if pd.cfgGpio != 0 then pd.cfgGpio else target.cfgGpio,
            hostCaps := target.hostCaps + pd.hostCaps,
            hostCaps2 := target.hostCaps2 + pd.hostCaps2,
            pmCaps := target.pmCaps + pd.pmCaps)
  }

  /** Merging the same board data twice gives what merging it once gives. */
  lemma SdhciMergeIdempotent(pd: SdhciValue, target: SdhciValue)
    ensures SdhciMerge(pd, SdhciMerge(pd, target)) == SdhciMerge(pd, target)
  {
    var once := SdhciMerge(pd, target);
    assert once.hostCaps + pd.hostCaps == once.hostCaps;
    assert once.hostCaps2 + pd.hostCaps2 == once.hostCaps2;
    assert once.pmCaps + pd.pmCaps == once.pmCaps;
  }

  /** `struct s3c_sdhci_platdata`, updated in place. */
  class SdhciPlatdata {
    var maxWidth: nat
    var hostCaps: Caps
    var hostCaps2: Caps
    var pmCaps: Caps
    var cdType: nat
    var extCdGpio: int
    var extCdGpioInvert: bool
    var extCdInit: FnPtr
    var extCdCleanup: FnPtr
    var cfgGpio: FnPtr
    /** Every field the merge does not write. */
    var rest: seq<int>

    function Value(): SdhciValue
      reads this
    {
      SdhciValue(maxWidth, hostCaps, hostCaps2, pmCaps, cdType, extCdGpio, extCdGpioInvert,
                 extCdInit, extCdCleanup, cfgGpio, rest)
    }

    constructor (v: SdhciValue)
      ensures Value() == v
    {
      maxWidth, hostCaps, hostCaps2, pmCaps := v.maxWidth, v.hostCaps, v.hostCaps2, v.pmCaps;
      cdType, extCdGpio, extCdGpioInvert := v.cdType, v.extCdGpio, v.extCdGpioInvert;
      extCdInit, extCdCleanup, cfgGpio := v.extCdInit, v.extCdCleanup, v.cfgGpio;
      rest := v.rest;
    }
  }

  /** `s3c_sdhci_set_platdata`: `pd` and `set` may be the same structure. */
  method SdhciSetPlatdata(pd: SdhciPlatdata, target: SdhciPlatdata)
    modifies target
    ensures target.Value() == SdhciMerge(old(pd.Value()), old(target.Value()))
    ensures target.rest == old(target.rest)
    ensures pd != target ==> pd.Value() == old(pd.Value())
  {
    target.cdType := pd.cdType;
    target.extCdInit := pd.extCdInit;
    target.extCdCleanup := pd.extCdCleanup;
    target.extCdGpio := pd.extCdGpio;
    target.extCdGpioInvert := pd.extCdGpioInvert;

    if pd.maxWidth != 0 {
      target.maxWidth := pd.maxWidth;
    }
    if pd.cfgGpio != 0 {
      target.cfgGpio := pd.cfgGpio;
    }
    SdhciAddCaps(pd, target);
  }

  /** The capability part of `s3c_sdhci_set_platdata`: each word of `pd`
      that is nonzero is OR-ed into `set`; OR-ing in an empty word would
      change nothing, so the tests only save work. */
  method SdhciAddCaps(pd: SdhciPlatdata, target: SdhciPlatdata)
    modifies target
    ensures target.hostCaps == old(target.hostCaps) + old(pd.hostCaps)
    ensures target.hostCaps2 == old(target.hostCaps2) + old(pd.hostCaps2)
    ensures target.pmCaps == old(target.pmCaps) + old(pd.pmCaps)
    ensures target.maxWidth == old(target.maxWidth) && target.cdType == old(target.cdType)
    ensures target.extCdGpio == old(target.extCdGpio) && target.extCdGpioInvert == old(target.extCdGpioInvert)
    ensures target.extCdInit == old(target.extCdInit) && target.extCdCleanup == old(target.extCdCleanup)
    ensures target.cfgGpio == old(target.cfgGpio) && target.rest == old(target.rest)
  {
    if pd.hostCaps != {} {
      target.hostCaps := target.hostCaps + pd.hostCaps;
    }
    if pd.hostCaps2 != {} {
      target.hostCaps2 := target.hostCaps2 + pd.hostCaps2;
    }
    if pd.pmCaps != {} {
      target.pmCaps := target.pmCaps + pd.pmCaps;
    }
    assert old(target.hostCaps) + {} == old(target.hostCaps);
    assert old(target.hostCaps2) + {} == old(target.hostCaps2);
    assert old(target.pmCaps) + {} == old(target.pmCaps);
  }
}
