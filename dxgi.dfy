/**
  Result codes, format and colour-space tags and reply shapes of the DXGI and
  D3D11 calls that monitor.cpp and main.cpp make. The calls themselves are not
  modelled: each one becomes the next reply of an oracle.
 */
module Dxgi {
  import opened Com

  datatype Option<T> = None | Some(value: T)

  /** The HRESULT classes the code distinguishes; `OtherFailure` is every other failing code. */
  datatype HResult = Ok | WaitTimeout | AccessLost | InvalidCall | OtherFailure

  /** `FAILED(hr)`. `WaitTimeout` is a failure code too, although the code tests for it before `FAILED`. */
  predicate Failed(hr: HResult)
  {
    !hr.Ok?
  }

  type Format = nat
  const R16G16B16A16_FLOAT: Format := 10
  const R8G8B8A8_UNORM: Format := 28

  type ColorSpace = nat
  const RGB_FULL_G2084_NONE_P2020: ColorSpace := 12

  /** `D3D_FEATURE_LEVEL_11_0`. */
  const FEATURE_LEVEL_11_0: nat := 0xb000

  /** The largest width or height of a D3D11 2D texture. */
  const MAX_TEXTURE_DIMENSION: nat := 16384

  /** `RECT`: desktop coordinates of an output. */
  datatype Rect = Rect(left: int, top: int, right: int, bottom: int)

  /** The fields of `DXGI_OUTPUT_DESC1` the code reads. `monitor` is the `HMONITOR`. */
  datatype OutputDesc = OutputDesc(
    deviceName: string,
    desktop: Rect,
    attached: bool,
    monitor: nat,
    colorSpace: ColorSpace)

  /** A descriptor after `memset(&desc_, 0, ...)`. */
  const ZeroDesc := OutputDesc("", Rect(0, 0, 0, 0), false, 0, 0)

  /** The reply of a call that creates or hands out an interface: the object (already AddRef'd for the caller), or a failure. */
  datatype Created = Made(obj: Obj) | Refused

  /** What such a call writes into its out-parameter. */
  function Produced(c: Created): Ptr
  {
    if c.Made? then Ref(c.obj) else Null
  }

  /**
    One `AcquireNextFrame` reply: its result, the `LastPresentTime` it writes
    into the frame info, and the resource it writes (AddRef'd for the caller).
   */
  datatype Acquire = Acquire(hr: HResult, presentTime: int, resource: Ptr)
}
