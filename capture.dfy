/**
  The single-monitor capture path of main.cpp and the `BitBlt` hook around it:
  the five D3D11/DXGI globals, their initialisation and release, the tonemap
  dispatch, the frame readback and the decision whether a blit is redirected
  to the captured frame.
 */
module Capture {
  import opened Com
  import opened Dxgi

  // ---------------------------------------------------------------------------
  // 32-bit arithmetic
  // ---------------------------------------------------------------------------

  const U32: nat := 0x1_0000_0000

  /** A `UINT`. */
  type UInt = n: nat | n < U32

  /** `(int) x` for a `UINT` `x`: values from 2^31 on wrap to negative numbers. */
  function ToInt(x: UInt): (r: int)
    ensures -0x8000_0000 <= r < 0x8000_0000
    ensures r % U32 == x
  {
    if x < 0x8000_0000 then x else x - U32
  }

  // ---------------------------------------------------------------------------
  // The compute dispatch grid of tonemap
  // ---------------------------------------------------------------------------

  /** `(n + 15) / 16` in `UINT` arithmetic. */
  function GridDim(n: UInt): (g: UInt)
    ensures n + 15 < U32 ==> 16 * g >= n && 16 * (g - 1) < n
    ensures n + 15 >= U32 ==> g < 1
  {
    ((n + 15) % U32) / 16
  }

  datatype Grid = Grid(x: UInt, y: UInt, z: UInt)

  /** The thread-group counts `tonemap` dispatches for a `width` x `height` texture (16x16 threads per group). */
  function DispatchGrid(width: UInt, height: UInt): (g: Grid)
    ensures g.z == 1
    ensures width <= MAX_TEXTURE_DIMENSION ==> 16 * g.x >= width && 16 * (g.x - 1) < width
    ensures height <= MAX_TEXTURE_DIMENSION ==> 16 * g.y >= height && 16 * (g.y - 1) < height
  {
    Grid(GridDim(width), GridDim(height), 1)
  }

  /** Every pixel of a texture D3D11 can create is covered by a thread, and no group lies wholly outside it. */
  lemma GridCoversTexture(width: UInt, height: UInt)
    requires width <= MAX_TEXTURE_DIMENSION && height <= MAX_TEXTURE_DIMENSION
    ensures var g := DispatchGrid(width, height);
      16 * g.x >= width && 16 * (g.x - 1) < width &&
      16 * g.y >= height && 16 * (g.y - 1) < height && g.z == 1
  {
  }

  // ---------------------------------------------------------------------------
  // The readback buffer of capture_frame
  // ---------------------------------------------------------------------------

  /** `desc.Width * desc.Height * 4`, evaluated in `UINT`. */
  function ReadbackSize(width: UInt, height: UInt): (n: UInt)
    ensures width <= MAX_TEXTURE_DIMENSION && height <= MAX_TEXTURE_DIMENSION ==> n == width * height * 4
  {
    ProductBound(width, height);
    Wrap(Wrap(width * height) * 4)
  }

  /** Truncation of a product to 32 bits. */
  function Wrap(x: nat): (r: UInt)
    ensures x < U32 ==> r == x
  {
    x % U32
  }

  lemma ProductBound(width: nat, height: nat)
    ensures width <= MAX_TEXTURE_DIMENSION && height <= MAX_TEXTURE_DIMENSION ==> width * height * 4 < U32
  {
    if width <= MAX_TEXTURE_DIMENSION && height <= MAX_TEXTURE_DIMENSION {
      assert width * height <= MAX_TEXTURE_DIMENSION * height by {
        MulMono(width, MAX_TEXTURE_DIMENSION, height);
      }
      assert MAX_TEXTURE_DIMENSION * height <= MAX_TEXTURE_DIMENSION * MAX_TEXTURE_DIMENSION by {
        MulMono(height, MAX_TEXTURE_DIMENSION, MAX_TEXTURE_DIMENSION);
      }
    }
  }

  lemma MulMono(a: nat, b: nat, c: nat)
    requires a <= b
    ensures a * c <= b * c
  {
  }

  // ---------------------------------------------------------------------------
  // The raster operation of the hook
  // ---------------------------------------------------------------------------

  type Rop = bv32

  /** `CAPTUREBLT`: include layered windows in the copy. */
  const CAPTUREBLT: Rop := 0x4000_0000

  /** `rop & ~CAPTUREBLT`. */
  function WithoutCaptureBlt(rop: Rop): (r: Rop)
    ensures r & CAPTUREBLT == 0
    ensures r & !CAPTUREBLT == rop & !CAPTUREBLT
  {
    rop & !CAPTUREBLT
  }

  /** Clearing the bit loses nothing else: setting it again restores a `rop` that had it. */
  lemma CaptureBltRestored(rop: Rop)
    requires rop & CAPTUREBLT != 0
    ensures WithoutCaptureBlt(rop) | CAPTUREBLT == rop
  {
  }

  /** The hook hands the call to the original `BitBlt` unchanged. */
  predicate Passthrough(inited: bool, rop: Rop, colorSpace: ColorSpace)
    ensures !Passthrough(inited, rop, colorSpace) ==>
              inited && colorSpace == RGB_FULL_G2084_NONE_P2020 && WithoutCaptureBlt(rop) != rop
  {
    !inited || rop & CAPTUREBLT == 0 || colorSpace != RGB_FULL_G2084_NONE_P2020
  }

  // ---------------------------------------------------------------------------
  // The five globals
  // ---------------------------------------------------------------------------

  /** `device`, `ctx`, `dup`, `tonemap_cs`, `target_output`, and the reference counts. */
  datatype Globals = Globals(device: Ptr, ctx: Ptr, dup: Ptr, tonemapCs: Ptr, targetOutput: Ptr, counts: Ledger)

  /** The test at the top of `init_desktop_dup`. `target_output` is not part of it. */
  predicate Ready(g: Globals)
  {
    g.device.Ref? && g.ctx.Ref? && g.dup.Ref? && g.tonemapCs.Ref?
  }

  /** Each non-null global accounts for exactly one reference on top of `base`. */
  predicate Owned(g: Globals, base: Ledger)
  {
    g.counts == base + Own(g.targetOutput) + Own(g.device) + Own(g.ctx) + Own(g.dup) + Own(g.tonemapCs)
  }

  // ---------------------------------------------------------------------------
  // init_desktop_dup
  // ---------------------------------------------------------------------------

  /** An output of an adapter: the object `EnumOutputs` hands out and what `GetDesc1` reports (`None`: it fails). */
  datatype Output = Output(obj: Obj, desc: Option<OutputDesc>)

  /** An adapter and its outputs; `EnumOutputs(j)` fails exactly when `j` is past the last one. */
  datatype Adapter = Adapter(obj: Obj, outputs: seq<Output>)

  /** `D3D11CreateDevice`, and the level `GetFeatureLevel` later reports. */
  datatype DeviceReply = DeviceFailed | DeviceMade(device: Obj, ctx: Obj, featureLevel: nat)

  /**
    The replies `init_desktop_dup` gets: `CreateDXGIFactory1`, the adapters
    (`EnumAdapters1(i)` fails exactly when `i` is past the last one), the
    device, and `DuplicateOutput1` asked for `R16G16B16A16_FLOAT`.
   */
  datatype InitApi = InitApi(factory: Created, adapters: seq<Adapter>, device: DeviceReply, duplicate: Created)

  /** How the scan of one adapter's outputs ends. */
  datatype Scan = Selected(index: nat) | DescFailed(index: nat) | RanOut

  predicate Attached(o: Output)
  {
    o.desc.Some? && o.desc.value.attached
  }

  /** The output loop of `init_desktop_dup` from index `j`: the first attached output, unless a `GetDesc1` fails first. */
  function ScanOutputs(outputs: seq<Output>, j: nat): (r: Scan)
    requires j <= |outputs|
    ensures r.Selected? ==> j <= r.index < |outputs| && Attached(outputs[r.index])
    ensures r.DescFailed? ==> j <= r.index < |outputs| && outputs[r.index].desc.None?
    ensures !r.RanOut? ==> forall k :: j <= k < r.index ==> outputs[k].desc.Some? && !Attached(outputs[k])
    ensures r.RanOut? ==> forall k :: j <= k < |outputs| ==> outputs[k].desc.Some? && !Attached(outputs[k])
    decreases |outputs| - j
  {
    if j == |outputs| then RanOut
    else if outputs[j].desc.None? then DescFailed(j)
    else if outputs[j].desc.value.attached then Selected(j)
    else ScanOutputs(outputs, j + 1)
  }

  /**
    The result of `init_desktop_dup`, the globals it leaves, and the target
    output it released on a failure path after choosing it (`Null` if none).
   */
  datatype InitRun = InitRun(ok: bool, g: Globals, dropped: Ptr)

  /**
    `init_desktop_dup` with every failure path after the output is chosen
    nulling `target_output` as it releases it (see `LeftAsWritten`). Only the
    first adapter is ever scanned: the output loop leaves either with a chosen
    output or by returning false. The factory is released before the device
    is created, so it does not appear in the counts after the scan.
   */
  function Init(g: Globals, api: InitApi): (r: InitRun)
    ensures Ready(g) ==> r == InitRun(true, g, Null)
    ensures !Ready(g) && !OutputChosen(api) ==> r == InitRun(false, g, Null)
    ensures !Ready(g) ==> (r.ok <==> OutputChosen(api) && DeviceUsable(api.device) && api.duplicate.Made?)
    ensures r.ok ==> Ready(r.g) || (r.g.device.Ref? && r.g.ctx.Ref? && r.g.dup.Ref? && r.g.targetOutput.Ref?)
    ensures !Ready(g) && r.ok ==>
              r.g.targetOutput == Ref(api.adapters[0].outputs[ScanOutputs(api.adapters[0].outputs, 0).index].obj)
    ensures !Ready(g) && OutputChosen(api) && !r.ok ==> r.g.device.Null? && r.g.targetOutput.Null? && r.g.tonemapCs == g.tonemapCs
    ensures !Ready(g) && OutputChosen(api) && !r.ok ==>
              r.g.counts == if api.device.DeviceMade? && !DeviceUsable(api.device) then g.counts + multiset{api.device.ctx} else g.counts
    ensures r.dropped.Ref? ==> !r.ok && r.g.targetOutput.Null?
  {
    if Ready(g) then InitRun(true, g, Null)
    else if api.factory.Refused? || |api.adapters| == 0 then InitRun(false, g, Null)
    else
      var adapter := api.adapters[0];
      match ScanOutputs(adapter.outputs, 0)
      case RanOut => InitRun(false, g, Null)
      case DescFailed(_) => InitRun(false, g, Null)
      case Selected(j) =>
        var o := Ref(adapter.outputs[j].obj);
        var a := Ref(adapter.obj);
        FailedInitCounts(g.counts, o, a, api.device);
        OpenedCounts(g.(targetOutput := o, counts := g.counts + Own(o) + Own(a)), a, api.device, api.duplicate);
        Opened(g.(targetOutput := o, counts := g.counts + Own(o) + Own(a)), a, api.device, api.duplicate)
  }

  /** Releasing the chosen output and adapter brings the counts back, with the context of a refused device kept. */
  lemma FailedInitCounts(l: Ledger, o: Ptr, a: Ptr, device: DeviceReply)
    ensures Release(Release(l + Own(o) + Own(a), o), a) == l
    ensures device.DeviceMade? ==>
              Release(Release(AddRef(l + Own(o) + Own(a), Ref(device.ctx)), o), a) == l + multiset{device.ctx}
  {
    DeviceFailedCounts(l, o, a);
    if device.DeviceMade? {
      var c := Ref(device.ctx);
      DropFirst(l, o, a, c);
      DropHeld(l, a, c);
    }
  }

  /** The scan picks an output: the factory exists and the first adapter has an attached output. */
  predicate OutputChosen(api: InitApi)
  {
    api.factory.Made? && |api.adapters| > 0 && ScanOutputs(api.adapters[0].outputs, 0).Selected?
  }

  /** `D3D11CreateDevice` succeeded with feature level 11_0 or above. */
  predicate DeviceUsable(device: DeviceReply)
  {
    device.DeviceMade? && device.featureLevel >= FEATURE_LEVEL_11_0
  }

  /**
    The rest of `init_desktop_dup` once `target_output` is chosen, with the
    adapter `a` still held: the device, its feature level and the duplication
    stream. The counts follow the calls in the order the code makes them.
   */
  function Opened(g: Globals, a: Ptr, device: DeviceReply, duplicate: Created): (r: InitRun)
    requires g.targetOutput.Ref?
    ensures r.ok <==> DeviceUsable(device) && duplicate.Made?
    ensures r.ok <==> r.dropped.Null?
    ensures r.dropped.Ref? ==> r.dropped == g.targetOutput
    ensures r.g.tonemapCs == g.tonemapCs
    ensures r.ok ==> r.g.device == Ref(device.device) && r.g.ctx == Ref(device.ctx) && r.g.dup == Ref(duplicate.obj)
                     && r.g.targetOutput == g.targetOutput
    ensures !r.ok ==> r.g.device.Null? && r.g.targetOutput.Null?
    ensures device.DeviceFailed? ==> r.g.ctx.Null? && r.g.dup == g.dup
    ensures device.DeviceMade? && !DeviceUsable(device) ==> r.g.ctx == Ref(device.ctx) && r.g.dup == g.dup
    ensures DeviceUsable(device) && duplicate.Refused? ==> r.g.ctx.Null? && r.g.dup.Null?
  {
    var o := g.targetOutput;
    match device
    case DeviceFailed =>
      InitRun(false, g.(device := Null, ctx := Null, targetOutput := Null, counts := Release(Release(g.counts, o), a)), o)
    case DeviceMade(d, c, level) =>
      var made := AddRef(AddRef(g.counts, Ref(d)), Ref(c));
      if level < FEATURE_LEVEL_11_0 then
        InitRun(false, g.(device := Null, ctx := Ref(c), targetOutput := Null,
                          counts := Release(Release(Release(made, Ref(d)), o), a)), o)
      else if duplicate.Refused? then
        InitRun(false, g.(device := Null, ctx := Null, dup := Null, targetOutput := Null,
                          counts := Release(Release(Release(Release(made, Ref(c)), Ref(d)), o), a)), o)
      else
        var u := Ref(duplicate.obj);
        InitRun(true, g.(device := Ref(d), ctx := Ref(c), dup := u, counts := Release(AddRef(made, u), a)), Null)
  }

  /**
    The counts `Opened` leaves: the output and the adapter are released on
    every failure, a device refused for its feature level is released while
    its context stays held, and success keeps the device, the context and the
    duplication on top of the output.
   */
  lemma OpenedCounts(g: Globals, a: Ptr, device: DeviceReply, duplicate: Created)
    requires g.targetOutput.Ref?
    ensures device.DeviceMade? && !DeviceUsable(device) ==>
              Opened(g, a, device, duplicate).g.counts == Release(Release(AddRef(g.counts, Ref(device.ctx)), g.targetOutput), a)
    ensures !Opened(g, a, device, duplicate).ok && !(device.DeviceMade? && !DeviceUsable(device)) ==>
              Opened(g, a, device, duplicate).g.counts == Release(Release(g.counts, g.targetOutput), a)
    ensures Opened(g, a, device, duplicate).ok ==> Opened(g, a, device, duplicate).g.counts == Release(g.counts + multiset{device.device, device.ctx, duplicate.obj}, a)
  {
    match device
    case DeviceFailed =>
    case DeviceMade(d, c, level) =>
      if level < FEATURE_LEVEL_11_0 {
        TooLowNet(g.counts, d, c);
      } else if duplicate.Refused? {
        RefusedNet(g.counts, d, c);
      } else {
        DuplicatedNet(g.counts, d, c, duplicate.obj);
      }
  }

  lemma TooLowNet(l: Ledger, d: Obj, c: Obj)
    ensures Release(AddRef(AddRef(l, Ref(d)), Ref(c)), Ref(d)) == AddRef(l, Ref(c))
  {
    DropHeld(l, Ref(d), Ref(c));
  }

  lemma RefusedNet(l: Ledger, d: Obj, c: Obj)
    ensures Release(Release(AddRef(AddRef(l, Ref(d)), Ref(c)), Ref(c)), Ref(d)) == l
  {
    Cancel(l + Own(Ref(d)), Ref(c));
    Cancel(l, Ref(d));
  }

  lemma DuplicatedNet(l: Ledger, d: Obj, c: Obj, u: Obj)
    ensures AddRef(AddRef(AddRef(l, Ref(d)), Ref(c)), Ref(u)) == l + multiset{d, c, u}
  {
  }

  /** What `init_desktop_dup` as written leaves: a released target output still in `target_output` (main.cpp:121, 132, 150). */
  function LeftAsWritten(r: InitRun): (left: Globals)
    ensures left.(targetOutput := r.g.targetOutput) == r.g
    ensures r.dropped.Ref? ==> left.targetOutput == r.dropped
    ensures r.dropped.Null? ==> left == r.g
  {
    if r.dropped.Ref? then r.g.(targetOutput := r.dropped) else r.g
  }

  // ---------------------------------------------------------------------------
  // compile_tonemapper_cs and free_desktop_dup
  // ---------------------------------------------------------------------------

  /**
    `compile_tonemapper_cs` in a release build: nothing if a shader exists;
    otherwise `shader` is `None` when the resource cannot be found or loaded,
    and else the reply of `CreateComputeShader`, which writes `tonemap_cs`.
   */
  function Compiled(g: Globals, shader: Option<Created>): (r: Globals)
    ensures g.tonemapCs.Ref? ==> r == g
    ensures shader.None? ==> r == g
    ensures r.(tonemapCs := g.tonemapCs, counts := g.counts) == g
    ensures g.tonemapCs.Null? && shader.Some? ==> r.tonemapCs == Produced(shader.value) && r.counts == AddRef(g.counts, r.tonemapCs)
  {
    if g.tonemapCs.Ref? || shader.None? then g
    else
      var cs := Produced(shader.value);
      g.(tonemapCs := cs, counts := AddRef(g.counts, cs))
  }

  /** `free_desktop_dup`: each global released once if non-null, in the order of the code, then nulled. */
  function Freed(g: Globals): (r: Globals)
    ensures r.device.Null? && r.ctx.Null? && r.dup.Null? && r.tonemapCs.Null? && r.targetOutput.Null?
  {
    Globals(Null, Null, Null, Null, Null,
            Release(Release(Release(Release(Release(g.counts, g.tonemapCs), g.dup), g.ctx), g.device), g.targetOutput))
  }

  /** With the globals owning their references, `free_desktop_dup` gives every one of them back. */
  lemma FreeRestores(g: Globals, base: Ledger)
    requires Owned(g, base)
    ensures Freed(g).counts == base
    ensures Owned(Freed(g), base)
  {
    Cancel(base + Own(g.targetOutput) + Own(g.device) + Own(g.ctx) + Own(g.dup), g.tonemapCs);
    Cancel(base + Own(g.targetOutput) + Own(g.device) + Own(g.ctx), g.dup);
    Cancel(base + Own(g.targetOutput) + Own(g.device), g.ctx);
    Cancel(base + Own(g.targetOutput), g.device);
    Cancel(base, g.targetOutput);
  }

  /** A second `free_desktop_dup` releases nothing. */
  lemma FreeIdempotent(g: Globals)
    ensures Freed(Freed(g)) == Freed(g)
  {
    var f := Freed(g);
    assert Release(f.counts, Null) == f.counts;
  }

  /**
    Started with no device, context, stream or target output (as the hook's
    one call finds them), `init_desktop_dup` leaves every global owning its
    reference: what it keeps is counted once, what it released is null.
   */
  lemma InitOwned(g: Globals, base: Ledger, api: InitApi)
    requires Owned(g, base)
    requires g.device.Null? && g.ctx.Null? && g.dup.Null? && g.targetOutput.Null?
    ensures Owned(Init(g, api).g, base)
  {
    if !Ready(g) && api.factory.Made? && |api.adapters| > 0 {
      var adapter := api.adapters[0];
      var scan := ScanOutputs(adapter.outputs, 0);
      if scan.Selected? {
        var o, a := Ref(adapter.outputs[scan.index].obj), Ref(adapter.obj);
        assert Init(g, api) == Opened(g.(targetOutput := o, counts := g.counts + Own(o) + Own(a)), a, api.device, api.duplicate);
        OpenedOwned(g, base, o, a, api.device, api.duplicate);
      }
    }
  }

  /** Every path after the output `o` is chosen, with adapter `a` held, ends with each global owning its reference. */
  lemma OpenedOwned(g: Globals, base: Ledger, o: Ptr, a: Ptr, device: DeviceReply, duplicate: Created)
    requires Owned(g, base) && o.Ref?
    requires g.device.Null? && g.ctx.Null? && g.dup.Null? && g.targetOutput.Null?
    ensures Owned(Opened(g.(targetOutput := o, counts := g.counts + Own(o) + Own(a)), a, device, duplicate).g, base)
  {
    var l, t := g.counts, g.tonemapCs;
    var m := l + Own(o) + Own(a);
    var r := Opened(g.(targetOutput := o, counts := m), a, device, duplicate);
    OnlyShaderOwned(g, base);
    match device
    case DeviceFailed =>
      assert r.g.counts == Release(Release(m, o), a);
      DeviceFailedCounts(l, o, a);
    case DeviceMade(d, c, level) =>
      var made := AddRef(AddRef(m, Ref(d)), Ref(c));
      if level < FEATURE_LEVEL_11_0 {
        assert r.g.counts == Release(Release(Release(made, Ref(d)), o), a);
        LevelTooLowCounts(l, base, t, o, a, d, c);
      } else if duplicate.Refused? {
        assert r.g.counts == Release(Release(Release(Release(made, Ref(c)), Ref(d)), o), a);
        DuplicateRefusedCounts(l, o, a, d, c);
      } else {
        assert r.g.counts == Release(AddRef(made, Ref(duplicate.obj)), a);
        DuplicatedCounts(l, base, t, o, a, d, c, duplicate.obj);
      }
  }

  lemma OnlyShaderOwned(g: Globals, base: Ledger)
    requires Owned(g, base)
    requires g.device.Null? && g.ctx.Null? && g.dup.Null? && g.targetOutput.Null?
    ensures g.counts == base + Own(g.tonemapCs)
  {
    forall x ensures g.counts[x] == (base + Own(g.tonemapCs))[x] {
    }
  }

  // The counts each path of `init_desktop_dup` leaves once output `o` is
  // chosen with adapter `a`, device `d`, context `c` and stream `u`, from `l`.

  lemma DeviceFailedCounts(l: Ledger, o: Ptr, a: Ptr)
    ensures Release(Release(l + Own(o) + Own(a), o), a) == l
  {
    DropHeld(l, o, a);
    Cancel(l, a);
  }

  lemma LevelTooLowCounts(l: Ledger, base: Ledger, t: Ptr, o: Ptr, a: Ptr, d: Obj, c: Obj)
    requires l == base + Own(t)
    ensures Release(Release(Release(AddRef(AddRef(l + Own(o) + Own(a), Ref(d)), Ref(c)), Ref(d)), o), a)
         == base + Own(Null) + Own(Null) + Own(Ref(c)) + Own(Null) + Own(t)
  {
    var m := l + Own(o) + Own(a);
    DropHeld(m, Ref(d), Ref(c));
    assert Release(AddRef(AddRef(m, Ref(d)), Ref(c)), Ref(d)) == m + Own(Ref(c));
    DropFirst(l, o, a, Ref(c));
    assert Release(m + Own(Ref(c)), o) == l + Own(a) + Own(Ref(c));
    DropHeld(l, a, Ref(c));
    OnlyContext(base, t, c);
  }

  lemma OnlyContext(base: Ledger, t: Ptr, c: Obj)
    ensures base + Own(t) + Own(Ref(c)) == base + Own(Null) + Own(Null) + Own(Ref(c)) + Own(Null) + Own(t)
  {
    forall x ensures (base + Own(t) + Own(Ref(c)))[x] == (base + Own(Null) + Own(Null) + Own(Ref(c)) + Own(Null) + Own(t))[x] {
    }
  }

  lemma DropFirst(l: Ledger, o: Ptr, a: Ptr, c: Ptr)
    ensures Release(l + Own(o) + Own(a) + Own(c), o) == l + Own(a) + Own(c)
  {
    forall x ensures Release(l + Own(o) + Own(a) + Own(c), o)[x] == (l + Own(a) + Own(c))[x] {
    }
  }

  lemma DuplicateRefusedCounts(l: Ledger, o: Ptr, a: Ptr, d: Obj, c: Obj)
    ensures Release(Release(Release(Release(AddRef(AddRef(l + Own(o) + Own(a), Ref(d)), Ref(c)), Ref(c)), Ref(d)), o), a) == l
  {
    var m := l + Own(o) + Own(a);
    Cancel(m + Own(Ref(d)), Ref(c));
    Cancel(m, Ref(d));
    DeviceFailedCounts(l, o, a);
  }

  lemma DuplicatedCounts(l: Ledger, base: Ledger, t: Ptr, o: Ptr, a: Ptr, d: Obj, c: Obj, u: Obj)
    requires l == base + Own(t)
    ensures Release(AddRef(AddRef(AddRef(l + Own(o) + Own(a), Ref(d)), Ref(c)), Ref(u)), a)
         == base + Own(o) + Own(Ref(d)) + Own(Ref(c)) + Own(Ref(u)) + Own(t)
  {
    forall x ensures Release(AddRef(AddRef(AddRef(l + Own(o) + Own(a), Ref(d)), Ref(c)), Ref(u)), a)[x]
                  == (base + Own(o) + Own(Ref(d)) + Own(Ref(c)) + Own(Ref(u)) + Own(t))[x] {
    }
  }

  /** `compile_tonemapper_cs` keeps every global owning its reference. */
  lemma CompileOwned(g: Globals, base: Ledger, shader: Option<Created>)
    requires Owned(g, base)
    ensures Owned(Compiled(g, shader), base)
  {
  }

  /**
    On the three failure paths after the output is chosen, the code releases
    `target_output` but leaves it set: the globals then hold one reference
    more than the counts grant them.
   */
  lemma StaleTargetBreaksOwnership(r: InitRun, base: Ledger)
    requires r.dropped.Ref? && r.g.targetOutput.Null? && Owned(r.g, base)
    ensures !Owned(LeftAsWritten(r), base)
  {
    var g := LeftAsWritten(r);
    var o := r.dropped.obj;
    assert r.g.counts[o] + 1 == (base + Own(g.targetOutput) + Own(g.device) + Own(g.ctx) + Own(g.dup) + Own(g.tonemapCs))[o];
  }

  /**
    A concrete run: `D3D11CreateDevice` fails after output 7 was chosen, then
    `free_desktop_dup` runs at unload. As written, output 7 is released a
    second time and the one reference its other holder had is gone; with
    `target_output` nulled, the counts come back to where they started.
   */
  lemma StaleTargetReleasedTwice()
    ensures var g := Globals(Null, Null, Null, Null, Null, multiset{7});
      var api := InitApi(Made(1), [Adapter(2, [Output(7, Some(OutputDesc("DISPLAY1", Rect(0, 0, 1920, 1080), true, 3, 12)))])], DeviceFailed, Refused);
      Freed(LeftAsWritten(Init(g, api))).counts == multiset{} &&
      Freed(Init(g, api).g).counts == multiset{7}
  {
    var g := Globals(Null, Null, Null, Null, Null, multiset{7});
    var outputs := [Output(7, Some(OutputDesc("DISPLAY1", Rect(0, 0, 1920, 1080), true, 3, 12)))];
    var api := InitApi(Made(1), [Adapter(2, outputs)], DeviceFailed, Refused);
    assert ScanOutputs(outputs, 0) == Selected(0);
    var g1 := g.(targetOutput := Ref(7), counts := g.counts + Own(Ref(7)) + Own(Ref(2)));
    assert Init(g, api) == Opened(g1, Ref(2), DeviceFailed, Refused);
    var l := Release(Release(g1.counts, Ref(7)), Ref(2));
    DropHeld(multiset{7}, Ref(7), Ref(2));
    Cancel(multiset{7}, Ref(2));
    assert l == multiset{7};
    var r := InitRun(false, g1.(device := Null, ctx := Null, targetOutput := Null, counts := l), Ref(7));
    assert Init(g, api) == r;
    ReleaseNull(l);
    assert Freed(r.g).counts == l;
    assert Freed(LeftAsWritten(r)).counts == Release(l, Ref(7));
    assert multiset{7} - multiset{7} == multiset{};
  }

  // ---------------------------------------------------------------------------
  // The poll loop of capture_frame
  // ---------------------------------------------------------------------------

  /** How the poll loop ends: at the `count`-th reply, or with the oracle used up. */
  datatype Await = Presented(count: nat) | AcquireError(count: nat) | Drained

  /**
    A result the intended loop gives up on: a failure other than
    `DXGI_ERROR_WAIT_TIMEOUT`, which `AcquireNextFrame(0, ...)` reports
    whenever no new frame is ready and which is retried, as the poll loop of
    `take_screenshot` retries it (monitor.cpp:179-183).
   */
  predicate Fatal(hr: HResult)
  {
    Failed(hr) && hr != WaitTimeout
  }

  predicate Pending(a: Acquire)
  {
    !Fatal(a.hr) && a.presentTime == 0
  }

  /**
    The poll loop as evidently intended, with `hr` taken from
    `AcquireNextFrame` and timeouts retried: it returns at the first reply
    that fails otherwise and leaves at the first reply with a non-zero
    `LastPresentTime`.
   */
  function AwaitFrame(acquires: seq<Acquire>, from: nat): (r: Await)
    requires from <= |acquires|
    ensures r.Presented? ==> from < r.count <= |acquires| && !Fatal(acquires[r.count - 1].hr) && acquires[r.count - 1].presentTime != 0
    ensures r.AcquireError? ==> from < r.count <= |acquires| && Fatal(acquires[r.count - 1].hr)
    ensures !r.Drained? ==> forall i :: from <= i < r.count - 1 ==> Pending(acquires[i])
    ensures r.Drained? ==> forall i :: from <= i < |acquires| ==> Pending(acquires[i])
    decreases |acquires| - from
  {
    if from == |acquires| then Drained
    else if Fatal(acquires[from].hr) then AcquireError(from + 1)
    else if acquires[from].presentTime != 0 then Presented(from + 1)
    else AwaitFrame(acquires, from + 1)
  }

  /**
    The poll loop as written (main.cpp:349-358): `hr` keeps its initial
    `S_OK`, so the failure test never fires and the loop goes on until some
    reply carries a non-zero `LastPresentTime`.
   */
  function AwaitFrameAsWritten(acquires: seq<Acquire>, from: nat): (r: Await)
    requires from <= |acquires|
    ensures !r.AcquireError?
    ensures r.Presented? ==> from < r.count <= |acquires| && acquires[r.count - 1].presentTime != 0
    ensures r.Presented? ==> forall i :: from <= i < r.count - 1 ==> acquires[i].presentTime == 0
    ensures r.Drained? ==> forall i :: from <= i < |acquires| ==> acquires[i].presentTime == 0
    decreases |acquires| - from
  {
    if from == |acquires| then Drained
    else if acquires[from].presentTime != 0 then Presented(from + 1)
    else AwaitFrameAsWritten(acquires, from + 1)
  }

  /** Where no reply fails other than by timing out, the loop as written and the loop as intended agree. */
  lemma {:induction false} AwaitAgreesWithoutFailures(acquires: seq<Acquire>, from: nat)
    requires from <= |acquires|
    requires forall i :: from <= i < |acquires| ==> !Fatal(acquires[i].hr)
    ensures AwaitFrameAsWritten(acquires, from) == AwaitFrame(acquires, from)
    decreases |acquires| - from
  {
    if from < |acquires| && acquires[from].presentTime == 0 {
      AwaitAgreesWithoutFailures(acquires, from + 1);
    }
  }

  /**
    A lost stream: every `AcquireNextFrame` reports `DXGI_ERROR_ACCESS_LOST`
    and writes no present time. As written the loop never notices and keeps
    polling; as intended it gives up at the first reply.
   */
  lemma LostStreamNeverNoticed()
    ensures var lost := Acquire(AccessLost, 0, Null);
      AwaitFrameAsWritten([lost, lost, lost], 0) == Drained &&
      AwaitFrame([lost, lost, lost], 0) == AcquireError(1)
  {
    var lost := Acquire(AccessLost, 0, Null);
    assert AwaitFrameAsWritten([lost, lost, lost], 2) == Drained;
  }

  /** No frame ready yet, then a new one: both loops poll past the timeout and stop at the frame. */
  lemma TimeoutRetried(res: Obj, time: int)
    requires time != 0
    ensures var replies := [Acquire(WaitTimeout, 0, Null), Acquire(Ok, time, Ref(res))];
      AwaitFrame(replies, 0) == Presented(2) && AwaitFrameAsWritten(replies, 0) == Presented(2)
  {
    var replies := [Acquire(WaitTimeout, 0, Null), Acquire(Ok, time, Ref(res))];
    assert AwaitFrame(replies, 1) == Presented(2);
    assert AwaitFrameAsWritten(replies, 1) == Presented(2);
  }

  /** The replies the loop consumes. */
  function Consumed(r: Await, acquires: seq<Acquire>): (n: nat)
    requires !r.Drained? ==> r.count <= |acquires|
    ensures n <= |acquires|
  {
    if r.Drained? then |acquires| else r.count
  }

  /** The references the resources of `acquires` carry, one per non-null resource. */
  function Taken(acquires: seq<Acquire>): multiset<Obj>
  {
    if acquires == [] then multiset{} else Taken(acquires[..|acquires| - 1]) + Own(acquires[|acquires| - 1].resource)
  }

  lemma Regroup(a: Ledger, b: Ledger, c: Ledger)
    ensures a + (b + c) == a + b + c
  {
    forall o ensures (a + (b + c))[o] == (a + b + c)[o] {
    }
  }

  lemma TakenStep(acquires: seq<Acquire>, i: nat)
    requires i < |acquires|
    ensures Taken(acquires[..i + 1]) == Taken(acquires[..i]) + Own(acquires[i].resource)
  {
    assert acquires[..i + 1][..i] == acquires[..i];
  }

  // ---------------------------------------------------------------------------
  // tonemap
  // ---------------------------------------------------------------------------

  /** `CreateTexture2D` for the output, `CreateShaderResourceView`, `CreateUnorderedAccessView`. */
  datatype TonemapApi = TonemapApi(texture: Created, srv: Created, uav: Created)

  /** The texture and the view `tonemap` created, released after the second view fails. */
  lemma UndoCreated(l: Ledger, texture: Ptr, srv: Ptr)
    ensures Release(Release(AddRef(AddRef(l, texture), srv), texture), srv) == l
  {
    forall x ensures Release(Release(AddRef(AddRef(l, texture), srv), texture), srv)[x] == l[x] {
    }
  }

  /** The two views `tonemap` created, released after the dispatch: only the texture stays held. */
  lemma UndoViews(l: Ledger, texture: Ptr, srv: Ptr, uav: Ptr)
    ensures Release(Release(AddRef(AddRef(AddRef(l, texture), srv), uav), srv), uav) == l + Own(texture)
  {
    forall x ensures Release(Release(AddRef(AddRef(AddRef(l, texture), srv), uav), srv), uav)[x] == (l + Own(texture))[x] {
    }
  }

  // ---------------------------------------------------------------------------
  // capture_frame
  // ---------------------------------------------------------------------------

  /**
    The replies `capture_frame` gets: the shader of `compile_tonemapper_cs`,
    the frames, `QueryInterface` for the texture, the texture's size, the
    calls of `tonemap`, the staging texture, and the bytes `Map` exposes.
   */
  datatype CaptureApi = CaptureApi(
    shader: Option<Created>,
    acquires: seq<Acquire>,
    query: Created,
    width: UInt,
    height: UInt,
    tonemap: TonemapApi,
    staging: Created,
    mapped: seq<bv8>)

  /**
    How `capture_frame` ends: with the frame copied, by returning early,
    by dereferencing a null pointer, or with the frame oracle used up.
   */
  datatype Captured = Copied(pixels: seq<bv8>, width: int, height: int) | Skipped | Crashed | Exhausted

  /** Every reply after the poll loop that a copy needs succeeds, and `Map` exposes enough bytes. */
  predicate CopyReady(api: CaptureApi)
  {
    && api.query.Made?
    && api.tonemap.texture.Made? && api.tonemap.srv.Made? && api.tonemap.uav.Made?
    && api.staging.Made?
    && ReadbackSize(api.width, api.height) <= |api.mapped|
  }

  /**
    `capture_frame`, with the poll loop as intended: it copies the frame
    exactly when a frame is presented through a non-null resource and every
    later call succeeds; it returns early on a failed poll, query or staging
    texture.
   */
  function CaptureOutcome(api: CaptureApi): (r: Captured)
    ensures r.Copied? ==> r.width == ToInt(api.width) && r.height == ToInt(api.height)
    ensures r.Copied? ==> ReadbackSize(api.width, api.height) <= |api.mapped| && r.pixels == api.mapped[..ReadbackSize(api.width, api.height)]
    ensures r.Copied? ==> AwaitFrame(api.acquires, 0).Presented? && api.query.Made? && api.staging.Made?
    ensures r.Exhausted? <==> AwaitFrame(api.acquires, 0).Drained?
    ensures AwaitFrame(api.acquires, 0).AcquireError? ==> r.Skipped?
    ensures var w := AwaitFrame(api.acquires, 0);
      w.Presented? && api.acquires[w.count - 1].resource.Ref? && CopyReady(api) ==>
        r == Copied(api.mapped[..ReadbackSize(api.width, api.height)], ToInt(api.width), ToInt(api.height))
    ensures r.Copied? ==> CopyReady(api)
  {
    match AwaitFrame(api.acquires, 0)
    case Drained => Exhausted
    case AcquireError(_) => Skipped
    case Presented(k) => CopyOut(api.acquires[k - 1].resource, api)
  }

  /** `capture_frame` after the poll loop, from the resource of the presented frame. */
  function CopyOut(resource: Ptr, api: CaptureApi): (r: Captured)
    ensures r.Copied? ==> r.width == ToInt(api.width) && r.height == ToInt(api.height)
    ensures r.Copied? ==> ReadbackSize(api.width, api.height) <= |api.mapped| && r.pixels == api.mapped[..ReadbackSize(api.width, api.height)]
    ensures r.Copied? ==> resource.Ref? && api.query.Made? && api.staging.Made?
    ensures r.Copied? <==> resource.Ref? && CopyReady(api)
    ensures resource.Null? ==> r.Crashed?
    ensures resource.Ref? && api.query.Refused? ==> r.Skipped?
    ensures resource.Ref? && CopyReady(api) ==>
              r == Copied(api.mapped[..ReadbackSize(api.width, api.height)], ToInt(api.width), ToInt(api.height))
  {
    if resource.Null? then Crashed
    else if api.query.Refused? then Skipped
    else Tonemapped(api)
  }

  /** `capture_frame` from the texture on: `tonemap`, whose null result is dereferenced, then the readback. */
  function Tonemapped(api: CaptureApi): (r: Captured)
    ensures r.Copied? ==> api.tonemap.texture.Made? && api.tonemap.srv.Made? && api.tonemap.uav.Made?
    ensures !(api.tonemap.texture.Made? && api.tonemap.srv.Made? && api.tonemap.uav.Made?) ==> r.Crashed?
    ensures api.tonemap.texture.Made? && api.tonemap.srv.Made? && api.tonemap.uav.Made? ==> r == ReadOut(api)
  {
    if api.tonemap.texture.Refused? || api.tonemap.srv.Refused? || api.tonemap.uav.Refused? then Crashed
    else ReadOut(api)
  }

  /** The staging texture, `Map`, and the copy of `width * height * 4` bytes (as 32-bit arithmetic) out of the mapped memory. */
  function ReadOut(api: CaptureApi): (r: Captured)
    ensures r.Copied? ==> r.width == ToInt(api.width) && r.height == ToInt(api.height)
    ensures r.Copied? ==> ReadbackSize(api.width, api.height) <= |api.mapped| && r.pixels == api.mapped[..ReadbackSize(api.width, api.height)]
    ensures r.Copied? ==> api.staging.Made?
    ensures r.Skipped? <==> api.staging.Refused?
    ensures api.staging.Made? && ReadbackSize(api.width, api.height) <= |api.mapped| ==>
              r == Copied(api.mapped[..ReadbackSize(api.width, api.height)], ToInt(api.width), ToInt(api.height))
    ensures api.staging.Made? && ReadbackSize(api.width, api.height) > |api.mapped| ==> r.Crashed?
  {
    if api.staging.Refused? then Skipped
    else
      var n := ReadbackSize(api.width, api.height);
      if |api.mapped| < n then Crashed
      else Copied(api.mapped[..n], ToInt(api.width), ToInt(api.height))
  }

  /** The references `capture_frame` never gives back: the resources of the frames it polled past. */
  function Leaked(api: CaptureApi): multiset<Obj>
  {
    match AwaitFrame(api.acquires, 0)
    case Drained => Taken(api.acquires)
    case AcquireError(k) => Taken(api.acquires[..k])
    case Presented(k) => Taken(api.acquires[..k - 1])
  }

  // ---------------------------------------------------------------------------
  // BitBltHook
  // ---------------------------------------------------------------------------

  /** A frame turned into a bitmap: its size (`None`: never written) and its bytes. */
  datatype Bitmap = Bitmap(width: Option<int>, height: Option<int>, pixels: seq<bv8>)

  /** What the hook does: call the original `BitBlt` unchanged, blit from the captured frame, or stop. */
  datatype Blit = Passed(rop: Rop) | FromFrame(rop: Rop, source: Bitmap) | Stopped(capture: Captured)

  /** The hook's answer once it knows whether initialisation succeeded. */
  function HookBlit(inited: bool, rop: Rop, colorSpace: ColorSpace, capture: CaptureApi): (b: Blit)
    ensures b.Passed? <==> Passthrough(inited, rop, colorSpace)
    ensures b.Passed? ==> b.rop == rop
    ensures b.FromFrame? ==> b.rop & CAPTUREBLT == 0 && b.rop | CAPTUREBLT == rop
    ensures b.Stopped? <==>
              !Passthrough(inited, rop, colorSpace) && (CaptureOutcome(capture).Crashed? || CaptureOutcome(capture).Exhausted?)
    ensures b.Stopped? ==> b.capture == CaptureOutcome(capture)
    ensures b.FromFrame? && CaptureOutcome(capture).Copied? ==>
              b.source == Bitmap(Some(CaptureOutcome(capture).width), Some(CaptureOutcome(capture).height), CaptureOutcome(capture).pixels)
    ensures b.FromFrame? && !CaptureOutcome(capture).Copied? ==> b.source == Bitmap(None, None, [])
  {
    if Passthrough(inited, rop, colorSpace) then Passed(rop)
    else
      CaptureBltRestored(rop);
      match CaptureOutcome(capture)
      case Copied(pixels, w, h) => FromFrame(WithoutCaptureBlt(rop), Bitmap(Some(w), Some(h), pixels))
      case Skipped => FromFrame(WithoutCaptureBlt(rop), Bitmap(None, None, []))
      case Crashed => Stopped(Crashed)
      case Exhausted => Stopped(Exhausted)
  }

  // ---------------------------------------------------------------------------
  // The globals of main.cpp
  // ---------------------------------------------------------------------------

  /**
    The globals after a `capture_frame` that did not crash: the shader as
    `compile_tonemapper_cs` leaves it, and the counts grown by the resources
    the poll loop never gives back. Every other reference it takes
    (texture, tonemapped texture, staging texture) it gives back.
   */
  function Captures(g: Globals, api: CaptureApi): (r: Globals)
    ensures r.(counts := g.counts) == Compiled(g, api.shader).(counts := g.counts)
    ensures r.counts == Compiled(g, api.shader).counts + Leaked(api)
    ensures g.tonemapCs.Ref? ==> r == g.(counts := g.counts + Leaked(api))
  {
    var c := Compiled(g, api.shader);
    c.(counts := c.counts + Leaked(api))
  }

  /** A capture that does not crash keeps every global owning its reference; only the frames polled past stay counted. */
  lemma CaptureOwned(g: Globals, base: Ledger, api: CaptureApi)
    requires Owned(g, base)
    ensures Owned(Captures(g, api), base + Leaked(api))
  {
    var c := Compiled(g, api.shader);
    CompileOwned(g, base, api.shader);
    forall x ensures (c.counts + Leaked(api))[x]
                  == (base + Leaked(api) + Own(c.targetOutput) + Own(c.device) + Own(c.ctx) + Own(c.dup) + Own(c.tonemapCs))[x] {
    }
  }

  /** When the first reply already presents a frame, `capture_frame` leaks nothing. */
  lemma FirstFrameLeaksNothing(api: CaptureApi)
    requires |api.acquires| > 0 && !Fatal(api.acquires[0].hr) && api.acquires[0].presentTime != 0
    ensures Leaked(api) == multiset{}
  {
    assert AwaitFrame(api.acquires, 0) == Presented(1);
    assert api.acquires[..0] == [];
  }

  /** The replies one hooked `BitBlt` gets: those of `init_desktop_dup` (first call only), `GetDesc1`, and `capture_frame`. */
  datatype HookApi = HookApi(init: InitApi, colorSpace: ColorSpace, capture: CaptureApi)

  /** `static bool inited = init_desktop_dup();`: initialised on the first call only. */
  function FirstCall(inited: Option<bool>, g: Globals, api: InitApi): (r: (bool, Globals))
    ensures inited.Some? ==> r == (inited.value, g)
    ensures inited.None? ==> r.0 == Init(g, api).ok && r.1 == Init(g, api).g
    ensures inited.None? && Ready(g) ==> r == (true, g)
  {
    if inited.Some? then (inited.value, g) else (Init(g, api).ok, Init(g, api).g)
  }

  /** The globals after the hook: those of the first call's initialisation, then those of the capture if one ran and did not crash. */
  function HookGlobals(inited: Option<bool>, g: Globals, rop: Rop, api: HookApi): (r: Option<Globals>)
    ensures r.None? <==> !Passthrough(FirstCall(inited, g, api.init).0, rop, api.colorSpace) && CaptureOutcome(api.capture).Crashed?
    ensures Passthrough(FirstCall(inited, g, api.init).0, rop, api.colorSpace) ==> r == Some(FirstCall(inited, g, api.init).1)
    ensures r.Some? && !Passthrough(FirstCall(inited, g, api.init).0, rop, api.colorSpace) ==>
              r.value == Captures(FirstCall(inited, g, api.init).1, api.capture)
  {
    var (ok, g1) := FirstCall(inited, g, api.init);
    if Passthrough(ok, rop, api.colorSpace) then Some(g1)
    else if CaptureOutcome(api.capture).Crashed? then None
    else Some(Captures(g1, api.capture))
  }

  /**
    From load time, one hooked `BitBlt` leaves every global owning its
    reference: on top of the counts before, exactly the resources of the
    frames the capture polled past when a capture ran.
   */
  lemma HookOwned(g: Globals, base: Ledger, rop: Rop, api: HookApi)
    requires Owned(g, base)
    requires g.device.Null? && g.ctx.Null? && g.dup.Null? && g.targetOutput.Null?
    ensures var r := HookGlobals(None, g, rop, api);
      r.Some? ==> Owned(r.value, if Passthrough(Init(g, api.init).ok, rop, api.colorSpace) then base else base + Leaked(api.capture))
  {
    InitOwned(g, base, api.init);
    if !Passthrough(Init(g, api.init).ok, rop, api.colorSpace) {
      CaptureOwned(Init(g, api.init).g, base, api.capture);
    }
  }

  /**
    The globals of main.cpp (`device`, `ctx`, `dup`, `tonemap_cs`,
    `target_output`, and the reference counts they take part in) as one
    record the operations update in place, and the hook's static `inited`.
   */
  class Engine {
    var globals: Globals
    /** `static bool inited` of the hook: `None` until its first call. */
    var inited: Option<bool>

    /** Load time: every pointer null, the hook not yet called. */
    constructor (counts: Ledger)
      ensures globals == Globals(Null, Null, Null, Null, Null, counts) && inited.None?
    {
      globals := Globals(Null, Null, Null, Null, Null, counts);
      inited := None;
    }

    /**
      The output loop of `init_desktop_dup` over one adapter: each output it
      enumerates is released unless it is the attached one kept as target.
     */
    method FindAttachedOutput(adapter: Adapter) returns (scan: Scan)
      modifies this`globals
      ensures scan == ScanOutputs(adapter.outputs, 0)
      ensures scan.Selected? ==> globals == old(globals).(counts := AddRef(old(globals.counts), Ref(adapter.outputs[scan.index].obj)))
      ensures !scan.Selected? ==> globals == old(globals)
    {
      var outputIndex := 0;
      while true
        invariant outputIndex <= |adapter.outputs|
        invariant ScanOutputs(adapter.outputs, outputIndex) == ScanOutputs(adapter.outputs, 0)
        invariant globals == old(globals)
        decreases |adapter.outputs| - outputIndex
      {
        if outputIndex == |adapter.outputs| {
          return RanOut;
        }
        var output := adapter.outputs[outputIndex];
        outputIndex := outputIndex + 1;
        globals := globals.(counts := AddRef(globals.counts, Ref(output.obj)));
        if output.desc.None? {
          globals := globals.(counts := Release(globals.counts, Ref(output.obj)));
          Cancel(old(globals.counts), Ref(output.obj));
          return DescFailed(outputIndex - 1);
        }
        if output.desc.value.attached {
          return Selected(outputIndex - 1);
        }
        globals := globals.(counts := Release(globals.counts, Ref(output.obj)));
        Cancel(old(globals.counts), Ref(output.obj));
      }
    }

    /**
      The factory and the adapter loop of `init_desktop_dup`: on success
      `target_output` is the chosen output, whose reference is kept, and the
      chosen adapter is returned still held.
     */
    method SelectOutput(api: InitApi) returns (adapter: Ptr)
      requires api.factory.Made?
      modifies this`globals
      ensures adapter.Null? <==> |api.adapters| == 0 || !ScanOutputs(api.adapters[0].outputs, 0).Selected?
      ensures adapter.Null? ==> globals == old(globals)
      ensures adapter.Ref? ==> (adapter == Ref(api.adapters[0].obj) &&
        var o := Ref(api.adapters[0].outputs[ScanOutputs(api.adapters[0].outputs, 0).index].obj);
        globals == old(globals).(targetOutput := o, counts := old(globals.counts) + Own(o) + Own(adapter)))
    {
      var factory := Ref(api.factory.obj);
      globals := globals.(counts := AddRef(globals.counts, factory));
      var adapterIndex := 0;
      adapter := Null;
      while adapter.Null?
        invariant adapter.Null? ==> adapterIndex == 0 && globals == old(globals).(counts := old(globals.counts) + Own(factory))
        invariant adapter.Ref? ==> (|api.adapters| > 0 && adapter == Ref(api.adapters[0].obj) && ScanOutputs(api.adapters[0].outputs, 0).Selected? &&
          var o := Ref(api.adapters[0].outputs[ScanOutputs(api.adapters[0].outputs, 0).index].obj);
          globals == old(globals).(targetOutput := o, counts := old(globals.counts) + Own(factory) + Own(adapter) + Own(o)))
        decreases if adapter.Null? then 1 else 0
      {
        if adapterIndex == |api.adapters| {
          globals := globals.(counts := Release(globals.counts, factory));
          Cancel(old(globals.counts), factory);
          return Null;
        }
        var candidate := api.adapters[adapterIndex];
        adapterIndex := adapterIndex + 1;
        globals := globals.(counts := AddRef(globals.counts, Ref(candidate.obj)));
        var scan := FindAttachedOutput(candidate);
        if !scan.Selected? {
          globals := globals.(counts := Release(Release(globals.counts, Ref(candidate.obj)), factory));
          Cancel(old(globals.counts) + Own(factory), Ref(candidate.obj));
          Cancel(old(globals.counts), factory);
          return Null;
        }
        // The inner loop only leaves with an output of this adapter, so the
        // test `target_adapter != adapter` that would release it is false.
        adapter := Ref(candidate.obj);
        globals := globals.(targetOutput := Ref(candidate.outputs[scan.index].obj));
      }
      globals := globals.(counts := Release(globals.counts, factory));
      forall x ensures globals.counts[x] == (old(globals.counts) + Own(globals.targetOutput) + Own(adapter))[x] {
      }
    }

    /** `init_desktop_dup`, with `target_output` nulled wherever it is released. */
    method InitDesktopDup(api: InitApi) returns (ok: bool)
      modifies this`globals
      ensures ok == Init(old(globals), api).ok && globals == Init(old(globals), api).g
    {
      if Ready(globals) {
        return true;
      }
      if api.factory.Refused? {
        return false;
      }
      var adapter := SelectOutput(api);
      if adapter.Null? {
        return false;
      }
      ok := OpenDevice(adapter, api.device, api.duplicate);
    }

    /**
      `D3D11CreateDevice`, the feature-level test and `DuplicateOutput1`, with
      `target_output` chosen and the adapter held. On each failure path the
      references are given back in the order of the code.
     */
    method OpenDevice(adapter: Ptr, reply: DeviceReply, duplicate: Created) returns (ok: bool)
      requires globals.targetOutput.Ref?
      modifies this`globals
      ensures ok == Opened(old(globals), adapter, reply, duplicate).ok && globals == Opened(old(globals), adapter, reply, duplicate).g
    {
      var o := globals.targetOutput;
      match reply
      case DeviceFailed =>
        globals := globals.(device := Null, ctx := Null);
        globals := globals.(counts := Release(globals.counts, o), targetOutput := Null);
        globals := globals.(counts := Release(globals.counts, adapter));
        return false;
      case DeviceMade(d, c, level) =>
        globals := globals.(device := Ref(d), ctx := Ref(c), counts := AddRef(AddRef(globals.counts, Ref(d)), Ref(c)));
        if level < FEATURE_LEVEL_11_0 {
          globals := globals.(counts := Release(globals.counts, globals.device), device := Null);
          globals := globals.(counts := Release(globals.counts, o), targetOutput := Null);
          globals := globals.(counts := Release(globals.counts, adapter));
          return false;
        }
        globals := globals.(dup := Produced(duplicate));
        if globals.dup.Null? {
          globals := globals.(counts := Release(Release(globals.counts, globals.ctx), globals.device));
          globals := globals.(ctx := Null, device := Null);
          globals := globals.(counts := Release(globals.counts, o), targetOutput := Null);
          globals := globals.(counts := Release(globals.counts, adapter));
          return false;
        }
        globals := globals.(counts := AddRef(globals.counts, globals.dup));
        globals := globals.(counts := Release(globals.counts, adapter));
        return true;
    }

    /** `compile_tonemapper_cs` in a release build. */
    method CompileTonemapperCs(shader: Option<Created>)
      modifies this`globals
      ensures globals == Compiled(old(globals), shader)
    {
      if globals.tonemapCs.Ref? {
        return;
      }
      if shader.None? {
        return;
      }
      var cs := Produced(shader.value);
      globals := globals.(tonemapCs := cs, counts := AddRef(globals.counts, cs));
    }

    /** `free_desktop_dup`. */
    method FreeDesktopDup()
      modifies this`globals
      ensures globals == Freed(old(globals))
    {
      ghost var g := globals;
      if globals.tonemapCs.Ref? {
        globals := globals.(counts := Release(globals.counts, globals.tonemapCs), tonemapCs := Null);
      } else {
        ReleaseNull(g.counts);
      }
      ghost var l := Release(g.counts, g.tonemapCs);
      assert globals.counts == l;
      if globals.dup.Ref? {
        globals := globals.(counts := Release(globals.counts, globals.dup), dup := Null);
      } else {
        ReleaseNull(l);
      }
      l := Release(l, g.dup);
      assert globals.counts == l;
      if globals.ctx.Ref? {
        globals := globals.(counts := Release(globals.counts, globals.ctx), ctx := Null);
      } else {
        ReleaseNull(l);
      }
      l := Release(l, g.ctx);
      assert globals.counts == l;
      if globals.device.Ref? {
        globals := globals.(counts := Release(globals.counts, globals.device), device := Null);
      } else {
        ReleaseNull(l);
      }
      l := Release(l, g.device);
      assert globals.counts == l;
      if globals.targetOutput.Ref? {
        globals := globals.(counts := Release(globals.counts, globals.targetOutput), targetOutput := Null);
      } else {
        ReleaseNull(l);
      }
    }

    /**
      `tonemap`: the output texture, the two views, and the dispatch of one
      16 by 16 group per tile of the input. Whatever fails, every object
      created so far is released and null is returned; on success only the
      output texture is still held.
     */
    method Tonemap(width: UInt, height: UInt, api: TonemapApi) returns (tonemapped: Ptr, dispatched: Option<Grid>)
      modifies this`globals
      ensures tonemapped.Ref? <==> api.texture.Made? && api.srv.Made? && api.uav.Made?
      ensures tonemapped.Ref? ==> tonemapped == Ref(api.texture.obj) && dispatched == Some(DispatchGrid(width, height))
      ensures tonemapped.Null? ==> dispatched.None? && globals == old(globals)
      ensures tonemapped.Ref? ==> globals == old(globals).(counts := old(globals.counts) + Own(tonemapped))
    {
      if api.texture.Refused? {
        return Null, None;
      }
      ghost var l := globals.counts;
      var texture := Ref(api.texture.obj);
      globals := globals.(counts := AddRef(globals.counts, texture));
      if api.srv.Refused? {
        globals := globals.(counts := Release(globals.counts, texture));
        Cancel(l, texture);
        return Null, None;
      }
      var srv := Ref(api.srv.obj);
      globals := globals.(counts := AddRef(globals.counts, srv));
      if api.uav.Refused? {
        globals := globals.(counts := Release(Release(globals.counts, texture), srv));
        UndoCreated(l, texture, srv);
        return Null, None;
      }
      var uav := Ref(api.uav.obj);
      globals := globals.(counts := AddRef(globals.counts, uav));
      dispatched := Some(DispatchGrid(width, height));
      globals := globals.(counts := Release(Release(globals.counts, srv), uav));
      UndoViews(l, texture, srv, uav);
      tonemapped := texture;
    }

    /**
      The poll loop of `capture_frame` as intended: each reply's resource is
      taken, and the loop stops at a failed reply or at one that presents a
      frame. The resources of the replies polled past are never released.
     */
    method PollFrame(acquires: seq<Acquire>) returns (r: Await, resource: Ptr)
      modifies this`globals
      ensures r == AwaitFrame(acquires, 0)
      ensures !r.Drained? ==> resource == acquires[r.count - 1].resource
      ensures globals == old(globals).(counts := old(globals.counts) + Taken(acquires[..Consumed(r, acquires)]))
    {
      var i := 0;
      assert acquires[..0] == [];
      while true
        invariant i <= |acquires|
        invariant AwaitFrame(acquires, i) == AwaitFrame(acquires, 0)
        invariant globals == old(globals).(counts := old(globals.counts) + Taken(acquires[..i]))
        decreases |acquires| - i
      {
        if i == |acquires| {
          assert acquires[..i] == acquires;
          return Drained, Null;
        }
        var reply := acquires[i];
        TakenStep(acquires, i);
        Regroup(old(globals.counts), Taken(acquires[..i]), Own(reply.resource));
        i := i + 1;
        globals := globals.(counts := globals.counts + Own(reply.resource));
        if Fatal(reply.hr) {
          return AcquireError(i), reply.resource;
        }
        if reply.presentTime != 0 {
          return Presented(i), reply.resource;
        }
      }
    }

    /**
      `capture_frame` with the poll loop as intended: the frame's bytes and
      size are written only when the copy runs to its end, and every path
      that neither crashes nor runs out of frames gives back every reference
      it took except those of the frames polled past.
     */
    method CaptureFrame(buffer: seq<bv8>, width: Option<int>, height: Option<int>, api: CaptureApi)
      returns (outcome: Captured, buffer': seq<bv8>, width': Option<int>, height': Option<int>)
      modifies this`globals
      ensures outcome == CaptureOutcome(api)
      ensures outcome.Copied? ==> (buffer', width', height') == (outcome.pixels, Some(outcome.width), Some(outcome.height))
      ensures !outcome.Copied? ==> (buffer', width', height') == (buffer, width, height)
      ensures !outcome.Crashed? ==> globals == Captures(old(globals), api)
    {
      buffer', width', height' := buffer, width, height;
      CompileTonemapperCs(api.shader);
      ghost var compiled := globals;
      ghost var captured := Captures(old(globals), api);
      assert captured == compiled.(counts := compiled.counts + Leaked(api));
      var polled, resource := PollFrame(api.acquires);
      if polled.Drained? {
        assert api.acquires[..|api.acquires|] == api.acquires;
        assert Leaked(api) == Taken(api.acquires);
        return Exhausted, buffer', width', height';
      }
      if polled.AcquireError? {
        assert Leaked(api) == Taken(api.acquires[..polled.count]);
        return Skipped, buffer', width', height';
      }
      ghost var k := polled.count;
      assert Leaked(api) == Taken(api.acquires[..k - 1]);
      assert CaptureOutcome(api) == CopyOut(api.acquires[k - 1].resource, api);
      TakenStep(api.acquires, k - 1);
      Regroup(compiled.counts, Taken(api.acquires[..k - 1]), Own(resource));
      outcome, buffer', width', height' := CopyFrame(captured.counts, resource, buffer, width, height, api);
    }

    /**
      `capture_frame` after the poll loop: the texture behind the resource,
      then the tonemap and the readback. `base` is what the counts come
      back to.
     */
    method CopyFrame(ghost base: Ledger, resource: Ptr, buffer: seq<bv8>, width: Option<int>, height: Option<int>, api: CaptureApi)
      returns (outcome: Captured, buffer': seq<bv8>, width': Option<int>, height': Option<int>)
      requires globals.counts == base + Own(resource)
      modifies this`globals
      ensures outcome == CopyOut(resource, api)
      ensures outcome.Copied? ==> (buffer', width', height') == (outcome.pixels, Some(outcome.width), Some(outcome.height))
      ensures !outcome.Copied? ==> (buffer', width', height') == (buffer, width, height)
      ensures !outcome.Crashed? ==> globals == old(globals).(counts := base)
    {
      if resource.Null? {
        // `resource->QueryInterface` through a null pointer.
        return Crashed, buffer, width, height;
      }
      if api.query.Refused? {
        globals := globals.(counts := Release(globals.counts, resource));
        Cancel(base, resource);
        return Skipped, buffer, width, height;
      }
      var texture := Ref(api.query.obj);
      globals := globals.(counts := Release(AddRef(globals.counts, texture), resource));
      DropHeld(base, resource, texture);
      outcome, buffer', width', height' := TonemapFrame(base, texture, buffer, width, height, api);
    }

    /** `tonemap` on the frame's texture, `tex->Release()`, and the readback of the tonemapped texture. */
    method TonemapFrame(ghost base: Ledger, texture: Ptr, buffer: seq<bv8>, width: Option<int>, height: Option<int>, api: CaptureApi)
      returns (outcome: Captured, buffer': seq<bv8>, width': Option<int>, height': Option<int>)
      requires texture.Ref? && globals.counts == base + Own(texture)
      modifies this`globals
      ensures outcome == Tonemapped(api)
      ensures outcome.Copied? ==> (buffer', width', height') == (outcome.pixels, Some(outcome.width), Some(outcome.height))
      ensures !outcome.Copied? ==> (buffer', width', height') == (buffer, width, height)
      ensures !outcome.Crashed? ==> globals == old(globals).(counts := base)
    {
      var tonemapped, _ := Tonemap(api.width, api.height, api.tonemap);
      globals := globals.(counts := Release(globals.counts, texture));
      if tonemapped.Null? {
        // `tonemapped->GetDesc` through a null pointer.
        return Crashed, buffer, width, height;
      }
      DropHeld(base, texture, tonemapped);
      outcome, buffer', width', height' := ReadBack(base, tonemapped, buffer, width, height, api);
    }

    /** The staging texture of `capture_frame`: copied from the tonemapped texture, mapped, and read into the buffer. */
    method ReadBack(ghost base: Ledger, tonemapped: Ptr, buffer: seq<bv8>, width: Option<int>, height: Option<int>, api: CaptureApi)
      returns (outcome: Captured, buffer': seq<bv8>, width': Option<int>, height': Option<int>)
      requires tonemapped.Ref? && globals.counts == base + Own(tonemapped)
      modifies this`globals
      ensures outcome == ReadOut(api)
      ensures outcome.Copied? ==> (buffer', width', height') == (outcome.pixels, Some(outcome.width), Some(outcome.height))
      ensures !outcome.Copied? ==> (buffer', width', height') == (buffer, width, height)
      ensures !outcome.Crashed? ==> globals == old(globals).(counts := base)
    {
      buffer', width', height' := buffer, width, height;
      if api.staging.Refused? {
        globals := globals.(counts := Release(globals.counts, tonemapped));
        Cancel(base, tonemapped);
        return Skipped, buffer', width', height';
      }
      var staging := Ref(api.staging.obj);
      globals := globals.(counts := Release(AddRef(globals.counts, staging), tonemapped));
      DropHeld(base, tonemapped, staging);
      var size := ReadbackSize(api.width, api.height);
      if |api.mapped| < size {
        // `memcpy` reads past the mapped bytes.
        return Crashed, buffer', width', height';
      }
      buffer' := api.mapped[..size];
      width', height' := Some(ToInt(api.width)), Some(ToInt(api.height));
      globals := globals.(counts := Release(globals.counts, staging));
      Cancel(base, staging);
      outcome := Copied(buffer', ToInt(api.width), ToInt(api.height));
    }

    /**
      `BitBltHook`: the first call initialises; the original `BitBlt` runs
      unchanged unless initialisation succeeded, the operation asks for
      `CAPTUREBLT` and the target output is in HDR; otherwise the frame is
      captured and blitted from a bitmap with `CAPTUREBLT` cleared.
     */
    method BitBltHook(rop: Rop, api: HookApi) returns (blit: Blit)
      modifies this`globals, this`inited
      ensures inited == Some(FirstCall(old(inited), old(globals), api.init).0)
      ensures blit == HookBlit(inited.value, rop, api.colorSpace, api.capture)
      ensures HookGlobals(old(inited), old(globals), rop, api).Some? ==> globals == HookGlobals(old(inited), old(globals), rop, api).value
    {
      if inited.None? {
        var ok := InitDesktopDup(api.init);
        inited := Some(ok);
      }
      if !inited.value || rop & CAPTUREBLT == 0 {
        return Passed(rop);
      }
      if api.colorSpace != RGB_FULL_G2084_NONE_P2020 {
        return Passed(rop);
      }
      var outcome, buffer, width, height := CaptureFrame([], None, None, api.capture);
      if outcome.Crashed? || outcome.Exhausted? {
        return Stopped(outcome);
      }
      blit := FromFrame(WithoutCaptureBlt(rop), Bitmap(width, height, buffer));
    }
  }
}
