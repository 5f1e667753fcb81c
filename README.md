# bitblt-hdr: a verified model of the capture core

bitblt-hdr is a DLL that hooks GDI's `BitBlt`. When a program asks for a blit
with `CAPTUREBLT` while the desktop output is in HDR10, the hook does not
copy the screen through GDI. It takes the frame from DXGI desktop duplication,
tonemaps it with a compute shader, reads it back, and blits from that bitmap.
This project models the parts of that code that keep state and make
decisions, and it proves what they promise.

- **`com_ptr<T>` (`Com`, com.dfy).** Every COM object is an `Obj` identity.
  All reference counts form one ghost ledger: a multiset whose multiplicity for
  an object is its reference count. `AddRef` adds one occurrence and `Release`
  removes one. `ComPtr` is a class with a `ptr` field over a shared `Counter`
  that holds the ledger. Its constructors and operators update both.
  `Accounts(l, base, holders)` is the ownership invariant: the ledger is
  whatever outside code owns (`base`) plus exactly one reference for each
  non-null holder. The `Accounts*` lemmas show that every operation keeps it.
- **Shared DXGI/D3D11 vocabulary (`Dxgi`, dxgi.dfy).** Result codes, format
  and colour-space tags, output descriptors, and reply shapes. It has no
  behaviour.
- **One monitor (`Monitors`, monitors.dfy).**
  - `get_path_info` is the do-while query loop plus the first-match search.
    `sdr_white_level` branches on its result.
  - The `monitor` class keeps the fields of monitor.hpp.
  - The duplication stream and the frame acquisition of `take_screenshot` are
    a state machine on values: `Screenshot`, `Poll`, `React`, `Recreate`,
    `UpdateDesc` and `Finish`. The class's methods are proved equal to it.
- **The capture path (`Capture`, capture.dfy).** The five globals of main.cpp
  (`device`, `ctx`, `dup`, `tonemap_cs`, `target_output`) and the ledger are
  one `Globals` record, held in the field `globals` of the class `Engine`. The
  hook's `static bool inited` is the field `inited`.
  - `init_desktop_dup`, `compile_tonemapper_cs`, `free_desktop_dup`,
    `tonemap`, `capture_frame` and `BitBltHook` are methods that update that
    record.
  - Each method is proved against a specification function (`Init`,
    `Compiled`, `Freed`, `CaptureOutcome`, `Captures`, `HookBlit`).
  - Lemmas show that every global owns exactly one reference, or is null.

Every call into Win32, DXGI or D3D11 is an oracle. Its reply comes in as a
parameter (one value) or as a sequence of replies read from the front. When
the code would call again after the sequence is used up, the run ends as
`Exhausted`: the model never invents a bound on the code's unbounded loops.

`hdr_on` is the predicate `Monitors.Monitor.HdrOn`. `valid()` and
`operator bool` are `Com.ComPtr.Valid`. Each holds exactly when its body
says, so neither has a row of its own. `virtual_position` and `get()` are
plain field reads. `Monitors.Monitor.Resolution` states how they relate.

## Model

| member | source | states |
|---|---|---|
| Com.AccountsCopy | utils/com_ptr.hpp:20-29 | a copy construction's AddRef pays for the new holder, so the ownership invariant holds with one more holder of the same object |
| Com.AccountsAdopt | utils/com_ptr.hpp:18 | adopting a raw pointer without AddRef moves that reference from the raw owner (`base`) to the new holder; the ledger is unchanged |
| Com.AccountsMove | utils/com_ptr.hpp:31-35 | a move adds a holder of the pointer and nulls the source; the invariant holds with an unchanged ledger |
| Com.AccountsDestroy | utils/com_ptr.hpp:37-44 | the destructor's single Release removes exactly the reference its holder accounted for |
| Com.AccountsReplace | utils/com_ptr.hpp:69-111 | releasing holder `i` and then storing a pointer that was AddRef'd for it keeps the invariant, so reuse leaks nothing. This covers the `operator T**` out-parameter pattern (69-79) and copy assignment between distinct holders (101-111), whose AddRef pays for the stored pointer |
| Com.AccountsAssignRaw | utils/com_ptr.hpp:86-99 | raw assignment of a different pointer releases the old reference and takes over the new one from its raw owner |
| Com.AccountsAssignMove | utils/com_ptr.hpp:113-123 | move assignment between distinct holders releases the target's reference and transfers the source's; the moved object's count does not change |
| Com.AccountsReleaseAll | utils/com_ptr.hpp:37-44 | destroying every holder brings the ledger back to `base` |
| Com.ReleaseAllNulls | utils/com_ptr.hpp:39-43 | destroying null holders releases nothing |
| Com.DanglingBreaksAccounts | utils/com_ptr.hpp:69-79 | a holder that keeps its pointer after that reference was released breaks the invariant: the object's count is one short. This is what nulling before exposing the address prevents |
| Com.ComPtr.constructor | utils/com_ptr.hpp:18 | holds the given pointer (null by default) and leaves the ledger unchanged |
| Com.ComPtr.Copy | utils/com_ptr.hpp:20-29 | shares the source's pointer and AddRefs it exactly once if it is non-null |
| Com.ComPtr.Move | utils/com_ptr.hpp:31-35 | takes the source's pointer, nulls the source, and leaves the ledger unchanged |
| Com.ComPtr.Destroy | utils/com_ptr.hpp:37-44 | releases once exactly when the pointer is non-null |
| Com.ComPtr.AddressOf | utils/com_ptr.hpp:69-79 | releases the held reference if any and nulls the pointer before the address is handed out |
| Com.ComPtr.ReceiveFromCallee | utils/com_ptr.hpp:131 | a callee writing through that address stores its pointer together with the reference it AddRef'd for the caller |
| Com.ComPtr.AssignRaw | utils/com_ptr.hpp:86-99 | the same pointer changes nothing; otherwise the old pointer is released once and the new one adopted without AddRef |
| Com.ComPtr.AssignCopy | utils/com_ptr.hpp:101-111 | self-assignment changes nothing; otherwise the old pointer is released and the new one AddRef'd, and the source is untouched |
| Com.ComPtr.AssignMove | utils/com_ptr.hpp:113-123 | self-assignment changes nothing; otherwise the old pointer is released, the source's pointer is taken, and the source becomes null |
| Com.ComPtr.As | utils/com_ptr.hpp:125-134 | returns a new wrapper. On a null wrapper it is empty and nothing is queried; otherwise it holds `QueryInterface`'s answer with that answer's reference |
| Monitors.FirstMatch | monitor.cpp:44-59 | the index of the first path whose source GDI name equals the device name, or none when no path matches |
| Monitors.SettledRound | monitor.cpp:26-39 | the first round that does not report `ERROR_INSUFFICIENT_BUFFER`; every earlier round did |
| Monitors.LookupPath | monitor.cpp:10-63 | not found when `GetMonitorInfoW` fails; unsettled exactly when every round asked for a bigger buffer; once some round settles, found exactly when that round's query succeeded and a path matches, and then the result is the first matching path; not found when that round's size query or path query failed |
| Monitors.PresentMatchFound | monitor.cpp:41-59 | a path whose source GDI name matches, in the round whose successful query ends the loop, is always found: the result is the first matching path, at or before the given one |
| Monitors.MatchPath | monitor.cpp:44-59 | the path for-loop returns the first match (`FirstMatch`) |
| Monitors.GetPathInfo | monitor.cpp:10-63 | the size/query do-while loop and the search return `LookupPath`, including the early false on a failed `GetMonitorInfoW` or buffer-size query |
| Monitors.WhiteLevel | monitor.cpp:117-134 | 200 when the path lookup or the white-level query fails, otherwise `SDRWhiteLevel * 80 / 1000` |
| Monitors.Throw | monitor.cpp:164-168 | a throw stops the run with a `Threw` outcome carrying the fault and the name from `name()`; the state is the monitor after `name()` filled its cache; no reference, stream, texture or descriptor changes |
| Monitors.UpdateDesc | monitor.cpp:232-241 | a successful `GetDesc1` stores its descriptor and changes nothing else; a failed one throws `DescFailed` with the descriptor unchanged; no reply means `Exhausted`; stream, counts and held texture never change |
| Monitors.RefreshKeepsName | monitor.cpp:232-241 | a refresh keeps a name already cached; with no cached name, the name is the refreshed descriptor's device name |
| Monitors.Recreate | monitor.cpp:207-230 | the old stream is released and `DuplicateOutput1` is requested once with the monitor's two formats; a refusal throws `DuplicateFailed` with `dup_` null; a made stream is bound holding one reference; a run that goes on has a bound stream and the new descriptor; no frame reply is consumed and the held texture is untouched |
| Monitors.RecreateRefreshes | monitor.cpp:207-230 | after `DuplicateOutput1` makes a stream, the rest of the rebuild is exactly `update_output_desc` on the monitor holding the new stream, with the old stream released and the two-format request recorded |
| Monitors.React | monitor.cpp:152-189 | a timeout or success goes on unchanged; `ACCESS_LOST` rebuilds the stream as `Recreate` says; `INVALID_CALL` releases the frame and goes on, rebuilds on a lost release, or throws `ReleaseFrameFailed`; any other failure throws `AcquireFailed` with the counts unchanged; no reaction consumes frame replies or touches the held texture |
| Monitors.Finish | monitor.cpp:192-204 | after the loop the run stops: a null resource is dereferenced (`Faulted`); a refused `QueryInterface` throws `QueryFailed` and keeps the old texture; a texture is captured and becomes `last_tex_` |
| Monitors.Poll | monitor.cpp:150-190 | the poll loop always reaches an end and never consumes more frame replies than it was given |
| Monitors.Screenshot | monitor.cpp:136-205 | `take_screenshot`: with a bound stream it releases and nulls the previous texture and polls; with none it first rebuilds the stream as `Recreate` says, stopping if that stops, then drops the previous texture and polls; it always stops and never consumes more frame replies than it was given |
| Monitors.PollCapturesOnPresent | monitor.cpp:150-190 | a capture ends on the first reply with a non-zero `LastPresentTime`; every reply before it had a zero one and was a retry, never another failure |
| Monitors.RecreateOwned | monitor.cpp:207-230 | rebinding the stream keeps the monitor owning exactly one reference through each non-null `dup_` and `last_tex_` |
| Monitors.UpdateDescOwned | monitor.cpp:232-241 | refreshing the descriptor keeps that invariant |
| Monitors.ReactOwned | monitor.cpp:152-189 | every reaction to an acquire result keeps that invariant |
| Monitors.FinishOwned | monitor.cpp:192-204 | the resource is released whatever `QueryInterface` returns, and `last_tex_` then owns the texture |
| Monitors.PollOwned | monitor.cpp:150-204 | the whole poll loop keeps the invariant on every path that returns or throws |
| Monitors.IdlePollOwned | monitor.cpp:150-190 | a round that acquired no resource keeps the invariant, and so does the rest of the loop |
| Monitors.ScreenshotOwned | monitor.cpp:136-205 | `take_screenshot` keeps the invariant: at most one live stream, at most one held frame, nothing leaked, nothing released twice |
| Monitors.LostStreamStep | monitor.cpp:173-177 | an `ACCESS_LOST` reply rebuilds the stream and polls again with the new stream and descriptor |
| Monitors.TimeoutStep | monitor.cpp:179-183 | a `WAIT_TIMEOUT` reply polls again with the monitor unchanged |
| Monitors.ReleasedFrameStep | monitor.cpp:152-171 | an `INVALID_CALL` reply whose `ReleaseFrame` succeeds polls again with the monitor unchanged |
| Monitors.ReleaseLostStep | monitor.cpp:154-162 | an `INVALID_CALL` reply whose `ReleaseFrame` reports lost access rebuilds the stream and polls again with the new stream and descriptor |
| Monitors.ReleaseFailedStep | monitor.cpp:164-168 | an `INVALID_CALL` reply whose `ReleaseFrame` fails otherwise throws `ReleaseFrameFailed` with the monitor's name |
| Monitors.AcquireFailedStep | monitor.cpp:185-189 | any other failed acquire throws `AcquireFailed` with the monitor's name |
| Monitors.QueryRefusedStep | monitor.cpp:192-201 | a new frame whose resource is not a texture: the resource is released and `take_screenshot` throws `QueryFailed`, leaving the counts as before the frame |
| Monitors.NewFrameStep | monitor.cpp:192-204 | a success with a new frame ends the loop holding the queried texture; the resource's count is back where it was |
| Monitors.BoundScreenshot | monitor.cpp:136-144 | with a bound stream, `take_screenshot` releases and nulls the previous texture and polls |
| Monitors.LostThenFrame | monitor.cpp:150-204 | a lost stream followed by a new frame: the loop rebuilds once and returns the frame |
| Monitors.AccessLostRebuildsOnce | monitor.cpp:136-230 | one lost-access reply during acquisition means exactly one rebuild with the monitor's two formats; the old stream and the old texture are released; the new stream and texture are held once each |
| Monitors.Monitor.constructor | monitor.cpp:65-69 | adopts `output_` without AddRef; null `dup_` and `last_tex_`, a zeroed descriptor, an empty name |
| Monitors.Monitor.Destroy | monitor.cpp:71-81 | releases each of `dup_`, `output_` and `last_tex_` once if it is non-null, and never `device_` |
| Monitors.Monitor.Name | monitor.cpp:83-94 | returns the cached name if there is one; otherwise it caches the descriptor's device name |
| Monitors.NameCached | monitor.cpp:83-94 | `name()` returns the cached name when there is one, otherwise the descriptor's device name; it changes nothing but the cache, and a second call returns what the first did |
| Monitors.Monitor.Resolution | monitor.cpp:101-115 | position plus resolution is the bottom-right corner of the desktop rectangle |
| Monitors.Monitor.SdrWhiteLevel | monitor.cpp:117-134 | returns `WhiteLevel` of the lookup made with the monitor's `HMONITOR` |
| Monitors.Monitor.UpdateOutputDesc | monitor.cpp:232-241 | updates `desc_` (and `name_` when it throws) as `UpdateDesc` says |
| Monitors.Monitor.RecreateOutputDuplication | monitor.cpp:207-230 | updates the fields and the ledger as `Recreate` says |
| Monitors.Monitor.TakeTexture | monitor.cpp:192-204 | updates the fields and the ledger as `Finish` says |
| Monitors.Monitor.Answer | monitor.cpp:154-189 | one iteration's reaction, as `React` says |
| Monitors.Monitor.Prepare | monitor.cpp:136-144 | binds a stream if there is none and drops the previous texture; the rest is the poll |
| Monitors.Monitor.PollFrames | monitor.cpp:146-204 | the while loop and the texture step, as `Poll` says |
| Monitors.Monitor.TakeScreenshot | monitor.cpp:136-205 | the whole of `take_screenshot`, as `Screenshot` says |
| Capture.ToInt | main.cpp:401-402 | `(int)` of a `UINT`: the value in the signed 32-bit range that is congruent to it modulo 2^32 |
| Capture.GridDim | main.cpp:326 | `(n + 15) / 16` in `UINT` arithmetic is the ceiling of `n / 16`, and wraps to 0 near the top of the range |
| Capture.DispatchGrid | main.cpp:326 | the grid `tonemap` dispatches has one layer, and for every width and height D3D11 allows its groups cover every pixel with no wholly empty column or row of groups |
| Capture.GridCoversTexture | main.cpp:326 | for every texture size D3D11 allows, the grid covers every pixel (`16 * gx >= W`) and has no wholly empty column of groups (`16 * (gx - 1) < W`), and likewise for H |
| Capture.ReadbackSize | main.cpp:398 | `Width * Height * 4` in `UINT`; exactly the product for every size D3D11 allows |
| Capture.WithoutCaptureBlt | main.cpp:433 | `rop & ~CAPTUREBLT` has `CAPTUREBLT` clear and every other bit unchanged |
| Capture.Passthrough | main.cpp:416-423 | the hook calls the original `BitBlt` unless init succeeded, the output is in HDR10 (`RGB_FULL_G2084_NONE_P2020`) and `rop` asks for `CAPTUREBLT`, so a call that is not passed through always has its raster operation changed |
| Capture.CaptureBltRestored | main.cpp:433 | clearing the bit loses nothing: setting it again gives back an operation that asked for it |
| Capture.ScanOutputs | main.cpp:60-96 | the first attached output, unless a `GetDesc1` fails first; every output before it was readable and unattached |
| Capture.Init | main.cpp:29-158 | unchanged true when device, context, stream and shader are set; otherwise false with no change unless an attached output is chosen; then true exactly when the device is created at feature level 11_0 or above and the duplication is made, with `target_output` the chosen output; on failure device and target output are null, the shader is kept, and the counts are back where they were, plus the context a too-low device leaves held |
| Capture.Opened | main.cpp:104-157 | after the output is chosen: success exactly when the device is created at feature level 11_0 or above and `DuplicateOutput1` succeeds, and then device, context and stream hold the new objects; a failure releases the target output (reported as dropped) and leaves device and target null; a failed device also leaves the context null, a too-low level keeps the context, a refused duplication nulls context and stream |
| Capture.OpenedCounts | main.cpp:104-157 | the counts each path leaves: every failure releases the target output and the adapter; a too-low device is released while its context stays held; success keeps device, context and stream and releases only the adapter |
| Capture.Compiled | main.cpp:160-241 | an existing shader is kept untouched; when the shader resource cannot be found or loaded nothing changes; otherwise a successful `CreateComputeShader` sets `tonemap_cs` with its reference; nothing else changes |
| Capture.Freed | main.cpp:243-274 | afterwards all five globals are null |
| Capture.FreeRestores | main.cpp:243-274 | with every global owning its reference, `free_desktop_dup` gives every one of them back |
| Capture.FreeIdempotent | main.cpp:243-274 | a second `free_desktop_dup` releases nothing |
| Capture.InitOwned | main.cpp:29-158 | starting from load-time globals, every path of `init_desktop_dup` (with the stale target fixed) leaves each non-null global owning exactly one reference and the released ones null |
| Capture.OpenedOwned | main.cpp:104-157 | the same for each device, feature-level and duplication outcome once the output is chosen |
| Capture.CompileOwned | main.cpp:160-241 | `compile_tonemapper_cs` keeps every global owning its reference |
| Capture.StaleTargetBreaksOwnership | main.cpp:117-154 | as written, a failure after the output is chosen leaves a released `target_output` set, so the globals claim one reference more than they hold |
| Capture.LeftAsWritten | main.cpp:117-154 | the globals `init_desktop_dup` as written leaves: those of the corrected run except that a released target output is still in `target_output` |
| Capture.StaleTargetReleasedTwice | main.cpp:117-124 | a concrete run: `D3D11CreateDevice` fails, then the unload calls `free_desktop_dup` (main.cpp:269-273, 468-471). As written, output 7 is released twice and its other owner's reference is gone; with the target nulled the counts return to the start |
| Capture.AwaitFrame | main.cpp:347-358 | the poll loop as intended (the result of `AcquireNextFrame` assigned to `hr`, a timeout retried as `take_screenshot` does) stops at the first reply that fails otherwise or at the first reply with a non-zero present time; every earlier reply was a timeout or a pending success |
| Capture.AwaitFrameAsWritten | main.cpp:347-358 | the loop as written never stops on a failure; it runs until some reply has a non-zero present time |
| Capture.AwaitAgreesWithoutFailures | main.cpp:347-358 | when no reply fails other than by timing out, the loop as written and the loop as intended agree |
| Capture.TimeoutRetried | main.cpp:347-358 | a timeout followed by a presented frame: both loops poll past the timeout and stop at the frame |
| Capture.LostStreamNeverNoticed | main.cpp:347-358 | with every reply `ACCESS_LOST`, the loop as written keeps polling; as intended it gives up at the first reply |
| Capture.UndoCreated | main.cpp:312-320 | when the second view fails, releasing the texture and the first view gives back all the references `tonemap` took |
| Capture.UndoViews | main.cpp:334-337 | after the dispatch, releasing both views leaves only the tonemapped texture held |
| Capture.CaptureOutcome | main.cpp:340-407 | with the corrected poll loop: ends `Exhausted` exactly when the replies run out, skips on a failed acquire; a presented non-null resource with query, tonemap creations and staging made and enough mapped bytes is copied as exactly `ReadbackSize` bytes with the texture's width and height cast to `int`, and a copy happens only then |
| Capture.CopyOut | main.cpp:360-407 | copied exactly when the resource is non-null and every later creation succeeds with enough mapped bytes; a null resource is dereferenced (`Crashed`); a refused `QueryInterface` returns early (`Skipped`); a copy carries the texture's size and the first `W*H*4` mapped bytes |
| Capture.Tonemapped | main.cpp:370-377 | a failed creation in `tonemap` returns null, which is then dereferenced (`Crashed`); when all succeed the outcome is the readback's |
| Capture.ReadOut | main.cpp:383-402 | returns early exactly when the staging texture cannot be created; with it made and enough mapped bytes the copy has the first `W*H*4` bytes and the texture's size; too few mapped bytes is a read past the mapping (`Crashed`) |
| Capture.HookBlit | main.cpp:410-439 | passes the call through unchanged exactly when init failed, `CAPTUREBLT` is clear, or the output is not HDR10; otherwise its capture is `CaptureOutcome`, it stops exactly when that crashes or runs out, and it blits with `CAPTUREBLT` cleared and every other bit kept from a bitmap of the copied width, height and pixels, or an unset one when nothing was copied |
| Capture.CaptureOwned | main.cpp:340-407 | with the corrected poll loop, a capture that does not crash keeps every global owning its reference; only the resources of frames polled past stay counted |
| Capture.Captures | main.cpp:340-407 | the globals after a capture that does not crash: the globals of `compile_tonemapper_cs`, with the references of the frames polled past added to the counts; an existing shader means only those counts change |
| Capture.FirstCall | main.cpp:414 | `static bool inited = init_desktop_dup()`: a later call keeps the first result and the globals; the first call gives the result and the globals of `Init`, and is true unchanged when everything is ready |
| Capture.HookGlobals | main.cpp:410-439 | the globals after the hook: those after the first call's initialisation when the call passes through; unspecified exactly when a capture runs and crashes; otherwise those of `Captures` from there |
| Capture.FirstFrameLeaksNothing | main.cpp:349-358 | when the first reply presents a frame, `capture_frame` leaks no reference |
| Capture.HookOwned | main.cpp:410-439 | the first hooked call from load time leaves every global owning its reference, on top of what the capture leaked |
| Capture.Engine.constructor | main.cpp:21-25 | load time: every global null, the hook not called yet |
| Capture.Engine.FindAttachedOutput | main.cpp:60-96 | the output loop returns `ScanOutputs`; it keeps the attached output's reference and releases every other output it enumerated |
| Capture.Engine.SelectOutput | main.cpp:36-102 | the factory and adapter loops: no adapter is returned exactly when there is no adapter or the first adapter's output scan selects nothing (no attached output before the first failing `GetDesc1`), and then nothing changes; otherwise `target_output` is the first attached output of the first adapter, it and the returned adapter are held once each, and the factory is released |
| Capture.Engine.InitDesktopDup | main.cpp:29-158 | result and globals are those of `Init` |
| Capture.Engine.OpenDevice | main.cpp:104-157 | result and globals are those of `Opened` |
| Capture.Engine.CompileTonemapperCs | main.cpp:160-241 | globals as `Compiled` says |
| Capture.Engine.FreeDesktopDup | main.cpp:243-274 | globals as `Freed` says |
| Capture.Engine.Tonemap | main.cpp:276-338 | returns non-null exactly when all three creations succeed, and then dispatches `DispatchGrid` and holds only the new texture; on any failure it returns null with every reference it took given back |
| Capture.Engine.PollFrame | main.cpp:344-358 | the loop as intended returns `AwaitFrame` and the presented resource; it holds every resource it was handed |
| Capture.Engine.CaptureFrame | main.cpp:340-407 | outcome as `CaptureOutcome` says; buffer, width and height are written only when the copy completes; a capture that does not crash leaves the globals of `Captures` |
| Capture.Engine.CopyFrame | main.cpp:360-372 | outcome as `CopyOut` says; buffer, width and height are written only when the copy completes |
| Capture.Engine.TonemapFrame | main.cpp:372-377 | outcome as `Tonemapped` says; buffer, width and height are written only when the copy completes |
| Capture.Engine.ReadBack | main.cpp:376-405 | outcome as `ReadOut` says; buffer, width and height are written only when the copy completes |
| Capture.Engine.BitBltHook | main.cpp:410-439 | `inited` is set on the first call only; the blit is `HookBlit`; the globals are those of `HookGlobals` |

## Left out

- Win32, DXGI and D3D11 are not modelled. Factories, adapters, outputs, device
  creation, views, `CSSet*`, `Dispatch`, `CopyResource`, `Map`/`Unmap`,
  `CreateBitmap` and the DC calls are foreign code. Each is an oracle reply.
  The pixels of a frame are the bytes `Map` exposes.
- The compute shader and its tonemap curve are not in these files.
- MinHook, `hook_autoinit`, `DllMain`, `create_console` and `LoadLibraryA` are
  bootstrap code. The unload call of `free_desktop_dup` is used only in
  `Capture.StaleTargetReleasedTwice`.
- `compile_tonemapper_cs` in a release build touches the resource through
  `FindResourceA`, `LoadResource`, `LockResource` and `FreeResource`. That
  part is one reply: no shader, or what `CreateComputeShader` returns.
- The debug build's `D3DCompileFromFile` path of `compile_tonemapper_cs` is
  not modelled. It is compiled only under `_DEBUG`.
- `Sleep(20)` and `Sleep(0)` are timing only.
- `sdr_white_level` computes in `float`. The model uses exact `real`
  arithmetic.
- `name()` converts the device name to code page 932. The model caches the
  name unconverted; only the cache-once behaviour is kept.
- utils/trampoline.hpp is not part of this model: it has no behaviour. monitor.hpp supplies only the field list.
- `operator T*`, `operator->`, `operator T* const*` and `operator void**` of
  `com_ptr` hand out the pointer without touching a count. `operator void**`
  is `AddressOf`.
- `ReleaseFrame` in `capture_frame` (main.cpp:357, 366, 388, 406) unlocks the
  duplicated frame. It is not a COM reference, so it is not in the ledger.
- Capture.CaptureOutcome, Capture.CaptureOwned, Capture.HookBlit and the `Engine` capture methods describe `capture_frame` with its poll loop corrected as the second finding below says. The loop as written is `Capture.AwaitFrameAsWritten`; where no reply fails other than by timing out, `Capture.AwaitAgreesWithoutFailures` shows the two agree.
- Capture.Leaked: `capture_frame` never releases the resource of a reply with a zero `LastPresentTime`; the model keeps those references counted rather than calling it a finding.
- Monitors.ScreenshotOwned: it assumes DXGI hands out a resource only with a successful reply that presents a frame (`FramesOnly`); `take_screenshot` would leak any other resource, and runs that end `Exhausted` are not covered.
- Monitors.PollOwned and Monitors.IdlePollOwned: the same assumption (`FramesOnly`) and the same exclusion of runs that end `Exhausted` as `Monitors.ScreenshotOwned`.
- Row pitch: the readback copies `W*H*4` contiguous bytes (main.cpp:398-399) and ignores `RowPitch`, as the code does. The model takes the first bytes of the mapping.
- Capture.ReadbackSize: the exact product is claimed only up to 16384 x 16384, the largest size D3D11 creates; above that the size wraps as `UINT`.
- Capture.ToInt: `int width = desc.Width` is implementation-defined above 2^31; the model takes the usual two's-complement wrap.
- Capture.Engine.CaptureFrame: says nothing about the globals on the paths that dereference a null pointer (`Crashed`): the behaviour there is undefined.
- Capture.Engine.BitBltHook: the globals are not specified after a crashed capture, for the same reason. Its `GetDesc1` on `target_output` is one reply (the colour space), and a failing `GetDesc1`, which would leave `desc` uninitialised, is not modelled.
- The hook builds its bitmap even after `capture_frame` returned early. `width` and `height` are then uninitialised; the model says `None`. `CreateBitmap` itself is foreign.
- Capture.InitOwned: proved from the state the first hooked call finds (no device, context, stream or target output); a second `init_desktop_dup` cannot happen, because `inited` is static.
- Capture.HookOwned: proved for the first hooked call from load time only.
- The feature-level failure path (main.cpp:126-135) releases `device` but keeps `ctx` set and referenced. The model keeps it that way, and `free_desktop_dup` releases it later.
- A failed call is taken to leave its out-parameter null: `D3D11CreateDevice` for `device` and `ctx` (main.cpp:106-124), `DuplicateOutput1` for `dup` (main.cpp:138) and `CreateComputeShader` for `tonemap_cs` (main.cpp:229-232). These are raw pointers (main.cpp:20-24), so what they hold after a failure is the callee's behaviour, not an assignment of the code; the model assumes it in `Capture.Opened`, `Capture.Engine.OpenDevice`, `Capture.Compiled` and `Capture.Engine.CompileTonemapperCs` (a refused reply is `Produced(Refused) == Null`).
- The format list `init_desktop_dup` passes to `DuplicateOutput1` (`R16G16B16A16_FLOAT`, main.cpp:137-138) is not recorded; the reply is one oracle value. The monitor's two-format request is recorded (`Monitors.MonitorFormats`).
- The test `target_adapter != adapter` (main.cpp:98-99) is always false, because the output loop only leaves with a chosen output. `Capture.Engine.SelectOutput` has no branch for it.
- Dxgi results: only the codes the code distinguishes are kept; every other failing HRESULT is `OtherFailure`. The text of exception messages and HRESULT formatting are not modelled.

## Findings

| source | as written | input that shows it | evidently intended | confidence | as-written member | corrected member |
|---|---|---|---|---|---|---|
| main.cpp:117-154 | on the three failure paths after the output is chosen, `target_output->Release()` runs but `target_output` keeps the pointer; `free_desktop_dup` at unload (main.cpp:269-273, 468-471) releases it again | `D3D11CreateDevice` fails after output 7 was chosen, then the DLL unloads: output 7 is released twice | `target_output = nullptr` after each release | not executed; high | Capture.LeftAsWritten, Capture.StaleTargetBreaksOwnership, Capture.StaleTargetReleasedTwice | Capture.Init, Capture.InitOwned, Capture.FreeRestores |
| main.cpp:347-354 | `hr` is never assigned from `AcquireNextFrame`, so `if (FAILED(hr)) return;` never fires and a failing stream is polled forever | every reply `DXGI_ERROR_ACCESS_LOST` with no present time: the loop never leaves | `hr = dup->AcquireNextFrame(...)`, with `DXGI_ERROR_WAIT_TIMEOUT` retried as `take_screenshot` does (monitor.cpp:179-183); the assignment alone would give up on every timeout | not executed; high | Capture.AwaitFrameAsWritten, Capture.LostStreamNeverNoticed | Capture.AwaitFrame, Capture.AwaitAgreesWithoutFailures, Capture.TimeoutRetried, Capture.Engine.PollFrame |
