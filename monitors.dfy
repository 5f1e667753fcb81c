/**
  One display of the desktop (monitor.cpp, fields in monitor.hpp): its
  duplication stream, its output descriptor, the last acquired frame, and the
  lookup of its SDR white level through the display-configuration service.
 */
module Monitors {
  import opened Com
  import opened Dxgi

  // ---------------------------------------------------------------------------
  // get_path_info: display-configuration path lookup
  // ---------------------------------------------------------------------------

  /** Outcome of `QueryDisplayConfig`. */
  datatype QueryResult = QuerySuccess | InsufficientBuffer | QueryError

  /**
    An active display path. `sourceName` is the source GDI device name that
    `DisplayConfigGetDeviceInfo` reports for it (`None` when that call fails);
    `target` identifies the path's target (adapter id and target id).
   */
  datatype PathInfo = PathInfo(sourceName: Option<string>, target: nat)

  /**
    One pass of the do-while loop: either `GetDisplayConfigBufferSizes` fails,
    or `QueryDisplayConfig` returns `result` together with the paths it wrote.
   */
  datatype ConfigRound = SizesFailed | Queried(result: QueryResult, paths: seq<PathInfo>)

  /** Result of `get_path_info`; `Unsettled` means every round of the oracle asked for a bigger buffer. */
  datatype PathLookup = Found(path: PathInfo) | NotFound | Unsettled

  predicate Matches(p: PathInfo, deviceName: string)
  {
    p.sourceName == Some(deviceName)
  }

  /** The index of the first path whose source name equals `deviceName`. */
  function FirstMatch(paths: seq<PathInfo>, deviceName: string): (r: Option<nat>)
    ensures r.Some? ==> r.value < |paths| && Matches(paths[r.value], deviceName)
    ensures r.Some? ==> forall j :: 0 <= j < r.value ==> !Matches(paths[j], deviceName)
    ensures r.None? ==> forall j :: 0 <= j < |paths| ==> !Matches(paths[j], deviceName)
  {
    if paths == [] then None
    else if Matches(paths[0], deviceName) then Some(0)
    else
      match FirstMatch(paths[1..], deviceName)
      case None => None
      case Some(k) => Some(k + 1)
  }

  predicate Retry(round: ConfigRound)
  {
    round.Queried? && round.result == InsufficientBuffer
  }

  /** The first round that does not ask for a bigger buffer: the one that ends the do-while loop. */
  function SettledRound(rounds: seq<ConfigRound>): (r: Option<nat>)
    ensures r.Some? ==> r.value < |rounds| && !Retry(rounds[r.value])
    ensures r.Some? ==> forall j :: 0 <= j < r.value ==> Retry(rounds[j])
    ensures r.None? ==> forall j :: 0 <= j < |rounds| ==> Retry(rounds[j])
  {
    if rounds == [] then None
    else if !Retry(rounds[0]) then Some(0)
    else
      match SettledRound(rounds[1..])
      case None => None
      case Some(k) => Some(k + 1)
  }

  /**
    What `get_path_info` finds, given what `GetMonitorInfoW` reports
    (`None` when it fails) and the rounds of the buffer-size/query loop.
   */
  function LookupPath(monitorInfo: Option<string>, rounds: seq<ConfigRound>): (r: PathLookup)
    ensures monitorInfo.None? ==> r == NotFound
    ensures r.Found? ==> monitorInfo.Some? && Matches(r.path, monitorInfo.value)
    ensures r.Unsettled? <==> monitorInfo.Some? && forall j :: 0 <= j < |rounds| ==> Retry(rounds[j])
    ensures monitorInfo.Some? && SettledRound(rounds).Some? ==>
              var round := rounds[SettledRound(rounds).value];
              r == if round.Queried? && round.result == QuerySuccess && FirstMatch(round.paths, monitorInfo.value).Some?
                   then Found(round.paths[FirstMatch(round.paths, monitorInfo.value).value])
                   else NotFound
  {
    if monitorInfo.None? then NotFound
    else
      match SettledRound(rounds)
      case None => Unsettled
      case Some(k) =>
        match rounds[k]
        case SizesFailed => NotFound
        case Queried(result, paths) =>
          if result != QuerySuccess then NotFound
          else
            match FirstMatch(paths, monitorInfo.value)
            case None => NotFound
            case Some(p) => Found(paths[p])
  }

  /** The for-loop over the queried paths. */
  method MatchPath(paths: seq<PathInfo>, deviceName: string) returns (r: Option<nat>)
    ensures r == FirstMatch(paths, deviceName)
  {
    for p := 0 to |paths|
      invariant forall j :: 0 <= j < p ==> !Matches(paths[j], deviceName)
    {
      if paths[p].sourceName.Some? && paths[p].sourceName.value == deviceName {
        return Some(p);
      }
    }
    return None;
  }

  /** `get_path_info`: the do-while re-query loop, then the first-match search. */
  method GetPathInfo(monitorInfo: Option<string>, rounds: seq<ConfigRound>) returns (r: PathLookup)
    ensures r == LookupPath(monitorInfo, rounds)
  {
    if monitorInfo.None? {
      return NotFound;
    }
    var k := 0;
    var result := QueryError;
    var paths: seq<PathInfo> := [];
    while true
      invariant 0 <= k <= |rounds|
      invariant forall j :: 0 <= j < k ==> Retry(rounds[j])
      decreases |rounds| - k
    {
      if k == |rounds| {
        return Unsettled;
      }
      if rounds[k].SizesFailed? {
        return NotFound;
      }
      result, paths := rounds[k].result, rounds[k].paths;
      if result != InsufficientBuffer {
        break;
      }
      k := k + 1;
    }
    assert SettledRound(rounds) == Some(k);
    if result == QuerySuccess {
      var p := MatchPath(paths, monitorInfo.value);
      if p.Some? {
        return Found(paths[p.value]);
      }
    }
    return NotFound;
  }

  /** The white level `sdr_white_level` falls back to. */
  const DefaultWhiteLevel: real := 200.0

  /**
    `sdr_white_level` given the path lookup and the `SDRWhiteLevel` the
    white-level query reports for a target (`None` when the query fails).
    `None` stands for a path lookup that has not returned.
   */
  function WhiteLevel(lookup: PathLookup, whiteLevel: nat -> Option<nat>): (r: Option<real>)
    ensures r.None? <==> lookup.Unsettled?
    ensures lookup.NotFound? ==> r == Some(DefaultWhiteLevel)
    ensures lookup.Found? && whiteLevel(lookup.path.target).None? ==> r == Some(DefaultWhiteLevel)
    ensures lookup.Found? && whiteLevel(lookup.path.target).Some? ==>
              r == Some(whiteLevel(lookup.path.target).value as real * 80.0 / 1000.0)
  {
    match lookup
    case Unsettled => None
    case NotFound => Some(DefaultWhiteLevel)
    case Found(path) =>
      match whiteLevel(path.target)
      case None => Some(DefaultWhiteLevel)
      case Some(level) => Some(level as real * 80.0 / 1000.0)
  }

  /**
    A path whose source name matches the monitor's, in the answer of the
    query that ends the loop, is found: the first such path, and not one
    after the matching path given.
   */
  lemma PresentMatchFound(deviceName: string, rounds: seq<ConfigRound>, k: nat, j: nat)
    requires SettledRound(rounds) == Some(k) && rounds[k].Queried? && rounds[k].result == QuerySuccess
    requires j < |rounds[k].paths| && Matches(rounds[k].paths[j], deviceName)
    ensures FirstMatch(rounds[k].paths, deviceName).Some? && FirstMatch(rounds[k].paths, deviceName).value <= j
    ensures LookupPath(Some(deviceName), rounds) == Found(rounds[k].paths[FirstMatch(rounds[k].paths, deviceName).value])
  {
  }

  // ---------------------------------------------------------------------------
  // The duplication stream and frame acquisition as a state machine on values
  // ---------------------------------------------------------------------------

  /** The formats `recreate_output_duplication` asks `DuplicateOutput1` for, most preferred first. */
  const MonitorFormats: seq<Format> := [R8G8B8A8_UNORM, R16G16B16A16_FLOAT]

  /**
    The replies of the calls a monitor makes, one sequence per call, consumed
    from the front: `AcquireNextFrame`, `ReleaseFrame`, `DuplicateOutput1`,
    `GetDesc1` (`None` when it fails) and `QueryInterface` for the texture.
    `requested` records the format list of every `DuplicateOutput1` call.
   */
  datatype Api = Api(
    acquires: seq<Acquire>,
    frameReleases: seq<HResult>,
    duplications: seq<Created>,
    descs: seq<Option<OutputDesc>>,
    queries: seq<Created>,
    requested: seq<seq<Format>>)

  /** The monitor fields these operations change, and the reference-count ledger. */
  datatype Snapshot = Snapshot(dup: Ptr, desc: OutputDesc, lastTex: Ptr, name: string, counts: Ledger)

  /** The `std::runtime_error`s the monitor throws. */
  datatype Fault = DuplicateFailed | DescFailed | ReleaseFrameFailed | AcquireFailed | QueryFailed

  /**
    How `take_screenshot` ends: with a texture, by throwing (the message
    carries the monitor's name), by dereferencing a null resource, or with the
    oracle running out while the code would still be calling.
   */
  datatype Shot = Captured(tex: Obj) | Threw(fault: Fault, name: string) | Faulted | Exhausted

  datatype Run = Running(s: Snapshot, api: Api) | Stopped(shot: Shot, s: Snapshot, api: Api)

  /** `name()`: caches the device name on first use. */
  function Named(s: Snapshot): Snapshot
  {
    if |s.name| > 0 then s else s.(name := s.desc.deviceName)
  }

  /** `name()` returns the cached name when there is one, and a second call returns what the first one did. */
  lemma NameCached(s: Snapshot)
    ensures Named(s).name == if |s.name| > 0 then s.name else s.desc.deviceName
    ensures Named(s).(name := s.name) == s
    ensures Named(Named(s)) == Named(s)
  {
  }

  /** Throwing: the message is built with `name()`, which may fill the cache. */
  function Throw(f: Fault, s: Snapshot, api: Api): (r: Run)
    ensures r.Stopped? && r.shot == Threw(f, Named(s).name) && r.s == Named(s) && r.api == api
    ensures r.s.counts == s.counts && r.s.dup == s.dup && r.s.lastTex == s.lastTex && r.s.desc == s.desc
  {
    Stopped(Threw(f, Named(s).name), Named(s), api)
  }

  /** `update_output_desc`. */
  function UpdateDesc(s: Snapshot, api: Api): (r: Run)
    ensures r.api.acquires == api.acquires && r.s.lastTex == s.lastTex
    ensures r.s.dup == s.dup && r.s.counts == s.counts
    ensures r.Stopped? ==> r.shot.Exhausted? || r.shot.Threw?
    ensures |api.descs| == 0 ==> r.Stopped? && r.shot.Exhausted?
    ensures |api.descs| > 0 && api.descs[0].Some? ==> r == Running(s.(desc := api.descs[0].value), api.(descs := api.descs[1..]))
    ensures |api.descs| > 0 && api.descs[0].None? ==> r.Stopped? && r.shot == Threw(DescFailed, Named(s).name) && r.s.desc == s.desc
  {
    if |api.descs| == 0 then Stopped(Exhausted, s, api)
    else
      var rest := api.(descs := api.descs[1..]);
      match api.descs[0]
      case None => Throw(DescFailed, s, rest)
      case Some(d) => Running(s.(desc := d), rest)
  }

  /** `recreate_output_duplication`: release and null the old stream, then bind a new one. */
  function Recreate(s: Snapshot, api: Api): (r: Run)
    ensures r.api.acquires == api.acquires && r.s.lastTex == s.lastTex
    ensures r.api.requested == api.requested + [MonitorFormats]
    ensures r.Stopped? ==> r.shot.Exhausted? || r.shot.Threw?
    ensures r.Running? ==> r.s.dup.Ref? && |api.descs| > 0 && api.descs[0].Some? && r.s.desc == api.descs[0].value
    ensures |api.duplications| > 0 && api.duplications[0].Refused? ==>
              r.Stopped? && r.shot == Threw(DuplicateFailed, Named(s).name) && r.s.dup.Null? && r.s.counts == Release(s.counts, s.dup)
    ensures |api.duplications| > 0 && api.duplications[0].Made? ==>
              r.s.dup == Ref(api.duplications[0].obj) && r.s.counts == Release(s.counts, s.dup) + multiset{api.duplications[0].obj}
  {
    var s1 := s.(dup := Null, counts := Release(s.counts, s.dup));
    var api1 := api.(requested := api.requested + [MonitorFormats]);
    if |api1.duplications| == 0 then Stopped(Exhausted, s1, api1)
    else
      var rest := api1.(duplications := api1.duplications[1..]);
      match api1.duplications[0]
      case Refused => Throw(DuplicateFailed, s1, rest)
      case Made(d) => UpdateDesc(s1.(dup := Ref(d), counts := AddRef(s1.counts, Ref(d))), rest)
  }

  /** After a made stream, the rest of `recreate_output_duplication` is `update_output_desc` on the rebound monitor. */
  lemma RecreateRefreshes(s: Snapshot, api: Api, d: Obj)
    requires |api.duplications| > 0 && api.duplications[0] == Made(d)
    ensures Recreate(s, api) ==
              UpdateDesc(s.(dup := Ref(d), counts := AddRef(Release(s.counts, s.dup), Ref(d))),
                         api.(requested := api.requested + [MonitorFormats], duplications := api.duplications[1..]))
  {
  }

  /** The reaction of the poll loop to the result of one `AcquireNextFrame`. */
  function React(hr: HResult, s: Snapshot, api: Api): (r: Run)
    ensures r.api.acquires == api.acquires && r.s.lastTex == s.lastTex
    ensures r.Stopped? ==> r.shot.Exhausted? || r.shot.Threw?
    ensures hr == WaitTimeout || hr == Ok ==> r == Running(s, api)
    ensures hr == AccessLost ==> r == Recreate(s, api)
    ensures hr == OtherFailure ==> r.Stopped? && r.shot == Threw(AcquireFailed, Named(s).name) && r.s.counts == s.counts
    ensures hr == InvalidCall && |api.frameReleases| > 0 ==>
              var rest := api.(frameReleases := api.frameReleases[1..]);
              && (api.frameReleases[0] == Ok ==> r == Running(s, rest))
              && (api.frameReleases[0] == AccessLost ==> r == Recreate(s, rest))
              && (api.frameReleases[0] != Ok && api.frameReleases[0] != AccessLost ==>
                    r.Stopped? && r.shot == Threw(ReleaseFrameFailed, Named(s).name) && r.s.counts == s.counts)
  {
    match hr
    case InvalidCall =>
      if |api.frameReleases| == 0 then Stopped(Exhausted, s, api)
      else
        var released := api.frameReleases[0];
        var rest := api.(frameReleases := api.frameReleases[1..]);
        if released == AccessLost then Recreate(s, rest)
        else if Failed(released) then Throw(ReleaseFrameFailed, s, rest)
        else Running(s, rest)
    case AccessLost => Recreate(s, api)
    case WaitTimeout => Running(s, api)
    case OtherFailure => Throw(AcquireFailed, s, api)
    case Ok => Running(s, api)
  }

  /** After the loop: get the texture from the resource, release the resource, keep the texture. */
  function Finish(s: Snapshot, api: Api, resource: Ptr): (r: Run)
    ensures r.Stopped? && r.api.acquires == api.acquires
    ensures resource.Null? ==> r.shot.Faulted?
    ensures resource.Ref? && |api.queries| > 0 && api.queries[0].Refused? ==>
              r.shot == Threw(QueryFailed, Named(s).name) && r.s.lastTex == s.lastTex
    ensures resource.Ref? && |api.queries| > 0 && api.queries[0].Made? ==>
              r.shot == Captured(api.queries[0].obj) && r.s.lastTex == Ref(api.queries[0].obj)
  {
    if resource.Null? then Stopped(Faulted, s, api)
    else if |api.queries| == 0 then Stopped(Exhausted, s, api)
    else
      var rest := api.(queries := api.queries[1..]);
      var q := api.queries[0];
      var s1 := s.(counts := Release(AddRef(s.counts, Produced(q)), resource));
      match q
      case Refused => Throw(QueryFailed, s1, rest)
      case Made(t) => Stopped(Captured(t), s1.(lastTex := Ref(t)), rest)
  }

  /**
    The poll loop of `take_screenshot`. It has no retry cap: it stops only on
    a reply with a non-zero `LastPresentTime`, by throwing, or when the oracle
    runs out.
   */
  function Poll(s: Snapshot, api: Api): (r: Run)
    ensures r.Stopped? && |r.api.acquires| <= |api.acquires|
    decreases |api.acquires|
  {
    if |api.acquires| == 0 then Stopped(Exhausted, s, api)
    else
      var a := api.acquires[0];
      var s1 := s.(counts := AddRef(s.counts, a.resource));
      var next := React(a.hr, s1, api.(acquires := api.acquires[1..]));
      if next.Stopped? then next
      else if a.presentTime != 0 then Finish(next.s, next.api, a.resource)
      else Poll(next.s, next.api)
  }

  /** `take_screenshot`: bind a stream if there is none, drop the previous frame, then poll. */
  function Screenshot(s: Snapshot, api: Api): (r: Run)
    ensures r.Stopped? && |r.api.acquires| <= |api.acquires|
    ensures s.dup.Ref? ==> r == Poll(s.(lastTex := Null, counts := Release(s.counts, s.lastTex)), api)
    ensures s.dup.Null? && Recreate(s, api).Stopped? ==> r == Recreate(s, api)
    ensures s.dup.Null? && Recreate(s, api).Running? ==>
              var t := Recreate(s, api).s;
              r == Poll(t.(lastTex := Null, counts := Release(t.counts, t.lastTex)), Recreate(s, api).api)
  {
    var start := if s.dup.Null? then Recreate(s, api) else Running(s, api);
    if start.Stopped? then start
    else Poll(start.s.(lastTex := Null, counts := Release(start.s.counts, start.s.lastTex)), start.api)
  }

  function Resume(stop: Option<Shot>, s: Snapshot, api: Api): Run
  {
    if stop.None? then Running(s, api) else Stopped(stop.value, s, api)
  }

  /**
    `update_output_desc` and `name()`: a refresh never replaces a name that
    is already cached, and before the first `name()` the name is the
    refreshed descriptor's.
   */
  lemma RefreshKeepsName(s: Snapshot, api: Api)
    ensures |s.name| > 0 ==> Named(UpdateDesc(s, api).s).name == s.name
    ensures |s.name| == 0 && |api.descs| > 0 && api.descs[0].Some? ==>
              Named(UpdateDesc(s, api).s).name == api.descs[0].value.deviceName
  {
    if |api.descs| > 0 && api.descs[0].None? {
      NameCached(s);
    }
  }

  // ---------------------------------------------------------------------------
  // Properties of the acquisition state machine
  // ---------------------------------------------------------------------------

  /**
    The first `n` replies end the loop: the `n`-th has a non-zero
    `LastPresentTime`; every earlier one had a zero one and was a retry
    (timeout, lost access, invalid call, or a success without a new frame),
    never another failure.
   */
  predicate EndsOnPresent(acquires: seq<Acquire>, n: int)
  {
    && 1 <= n <= |acquires|
    && acquires[n - 1].presentTime != 0
    && forall j :: 0 <= j < n - 1 ==> acquires[j].presentTime == 0 && acquires[j].hr != OtherFailure
  }

  lemma EndsOnPresentShift(acquires: seq<Acquire>, n: int)
    requires |acquires| > 0 && acquires[0].presentTime == 0 && acquires[0].hr != OtherFailure
    requires EndsOnPresent(acquires[1..], n)
    ensures EndsOnPresent(acquires, n + 1)
  {
    forall j | 0 <= j < n
      ensures acquires[j].presentTime == 0 && acquires[j].hr != OtherFailure
    {
      if j > 0 {
        assert acquires[j] == acquires[1..][j - 1];
      }
    }
  }

  /** One round of the poll loop: a capture ends it at once only on a reply with a present time, and a retry was no other failure. */
  lemma PollRound(s: Snapshot, api: Api) returns (next: Run)
    requires |api.acquires| > 0
    ensures next.api.acquires == api.acquires[1..]
    ensures next.Running? && api.acquires[0].presentTime == 0 ==>
              Poll(s, api) == Poll(next.s, next.api) && api.acquires[0].hr != OtherFailure
    ensures Poll(s, api).shot.Captured? && !(next.Running? && api.acquires[0].presentTime == 0) ==>
              api.acquires[0].presentTime != 0 && |Poll(s, api).api.acquires| == |api.acquires| - 1
  {
    var a := api.acquires[0];
    next := React(a.hr, s.(counts := AddRef(s.counts, a.resource)), api.(acquires := api.acquires[1..]));
  }

  /** A capture ends on the first reply with a non-zero `LastPresentTime`; the loop exits in no other way. */
  lemma {:induction false} PollCapturesOnPresent(s: Snapshot, api: Api)
    ensures Poll(s, api).shot.Captured? ==>
              EndsOnPresent(api.acquires, |api.acquires| - |Poll(s, api).api.acquires|)
    decreases |api.acquires|
  {
    if |api.acquires| > 0 {
      var next := PollRound(s, api);
      if next.Running? && api.acquires[0].presentTime == 0 {
        var r := Poll(next.s, next.api);
        PollCapturesOnPresent(next.s, next.api);
        if r.shot.Captured? {
          var n := |next.api.acquires| - |r.api.acquires|;
          EndsOnPresentShift(api.acquires, n);
          assert |api.acquires| - |r.api.acquires| == n + 1;
        }
      } else if Poll(s, api).shot.Captured? {
        assert EndsOnPresent(api.acquires, 1);
      }
    }
  }

  /** `AcquireNextFrame` hands out a resource only with a success that carries a new frame. */
  predicate FramesOnly(api: Api)
  {
    forall j :: 0 <= j < |api.acquires| ==>
      api.acquires[j].resource.Null? || (api.acquires[j].hr.Ok? && api.acquires[j].presentTime != 0)
  }

  /** The monitor owns exactly one reference through each of `dup_` and `last_tex_` when non-null. */
  predicate Owned(s: Snapshot, base: Ledger)
  {
    s.counts == base + Own(s.dup) + Own(s.lastTex)
  }

  lemma ReleaseDupOwned(s: Snapshot, base: Ledger)
    requires Owned(s, base)
    ensures Owned(s.(dup := Null, counts := Release(s.counts, s.dup)), base)
  {
    DropHeld(base, s.dup, s.lastTex);
  }

  lemma UpdateDescOwned(s: Snapshot, api: Api, base: Ledger)
    requires Owned(s, base)
    ensures Owned(UpdateDesc(s, api).s, base)
  {
  }

  lemma RecreateOwned(s: Snapshot, api: Api, base: Ledger)
    requires Owned(s, base)
    ensures Owned(Recreate(s, api).s, base)
  {
    var s1 := s.(dup := Null, counts := Release(s.counts, s.dup));
    ReleaseDupOwned(s, base);
    var api1 := api.(requested := api.requested + [MonitorFormats]);
    if |api1.duplications| > 0 && api1.duplications[0].Made? {
      var d := api1.duplications[0].obj;
      var s2 := s1.(dup := Ref(d), counts := AddRef(s1.counts, Ref(d)));
      UpdateDescOwned(s2, api1.(duplications := api1.duplications[1..]), base);
    }
  }

  lemma ReactOwned(hr: HResult, s: Snapshot, api: Api, base: Ledger)
    requires Owned(s, base)
    ensures Owned(React(hr, s, api).s, base)
  {
    match hr
    case InvalidCall =>
      if |api.frameReleases| > 0 && api.frameReleases[0] == AccessLost {
        var rest := api.(frameReleases := api.frameReleases[1..]);
        assert React(hr, s, api) == Recreate(s, rest);
        RecreateOwned(s, rest, base);
      }
    case AccessLost =>
      assert React(hr, s, api) == Recreate(s, api);
      RecreateOwned(s, api, base);
    case _ =>
  }

  /** `QueryInterface` and the release of the resource hand the monitor's frame reference over to the texture. */
  lemma FinishOwned(s: Snapshot, api: Api, resource: Ptr, base: Ledger)
    requires s.counts == base + Own(s.dup) + Own(resource) && s.lastTex.Null?
    ensures var r := Finish(s, api, resource); !r.shot.Exhausted? ==> Owned(r.s, base)
  {
    if resource.Ref? && |api.queries| > 0 {
      var q := api.queries[0];
      DropHeld(base + Own(s.dup), resource, Produced(q));
    }
  }

  /**
    The poll loop keeps the ownership invariant: a recreated stream replaces
    the released old one, the resource is released after `QueryInterface`,
    and `last_tex_` owns the texture that comes back.
   */
  lemma {:induction false} PollOwned(s: Snapshot, api: Api, base: Ledger)
    requires Owned(s, base) && s.lastTex.Null? && FramesOnly(api)
    ensures var r := Poll(s, api); !r.shot.Exhausted? ==> Owned(r.s, base)
    decreases |api.acquires|, 1
  {
    if |api.acquires| > 0 {
      var a := api.acquires[0];
      if a.resource.Null? {
        IdlePollOwned(s, api, base);
      } else {
        var s1 := s.(counts := AddRef(s.counts, a.resource));
        var api1 := api.(acquires := api.acquires[1..]);
        assert a.hr.Ok? && a.presentTime != 0;
        assert React(a.hr, s1, api1) == Running(s1, api1);
        assert Poll(s, api) == Finish(s1, api1, a.resource);
        FinishOwned(s1, api1, a.resource, base);
      }
    }
  }

  /** One round of the poll loop that acquired no resource. */
  lemma {:induction false} IdlePollOwned(s: Snapshot, api: Api, base: Ledger)
    requires Owned(s, base) && s.lastTex.Null? && FramesOnly(api)
    requires |api.acquires| > 0 && api.acquires[0].resource.Null?
    ensures var r := Poll(s, api); !r.shot.Exhausted? ==> Owned(r.s, base)
    decreases |api.acquires|, 0
  {
    var a := api.acquires[0];
    var api1 := api.(acquires := api.acquires[1..]);
    var next := React(a.hr, s, api1);
    assert s.(counts := AddRef(s.counts, a.resource)) == s;
    ReactOwned(a.hr, s, api1, base);
    if next.Running? && a.presentTime == 0 {
      assert FramesOnly(next.api) by {
        forall j | 0 <= j < |next.api.acquires| ensures
          next.api.acquires[j].resource.Null? || (next.api.acquires[j].hr.Ok? && next.api.acquires[j].presentTime != 0)
        {
          assert next.api.acquires[j] == api.acquires[j + 1];
        }
      }
      PollOwned(next.s, next.api, base);
    }
  }

  /**
    `take_screenshot` keeps the ownership invariant on every path that returns
    or throws: at most one live stream, at most one held frame, nothing leaked
    and nothing released twice.
   */
  lemma ScreenshotOwned(s: Snapshot, api: Api, base: Ledger)
    requires Owned(s, base) && FramesOnly(api)
    ensures var r := Screenshot(s, api); !r.shot.Exhausted? ==> Owned(r.s, base)
  {
    var start := if s.dup.Null? then Recreate(s, api) else Running(s, api);
    if s.dup.Null? {
      RecreateOwned(s, api, base);
    }
    if start.Running? {
      var t := start.s;
      DropHeld(base, t.lastTex, t.dup);
      var t1 := t.(lastTex := Null, counts := Release(t.counts, t.lastTex));
      assert Owned(t1, base);
      assert start.api.acquires == api.acquires;
      PollOwned(t1, start.api, base);
    }
  }

  /** A reply reporting lost access rebuilds the stream and polls again. */
  lemma LostStreamStep(s: Snapshot, api: Api, d: Obj, desc: OutputDesc)
    requires |api.acquires| > 0 && api.acquires[0] == Acquire(AccessLost, 0, Null)
    requires |api.duplications| > 0 && api.duplications[0] == Made(d)
    requires |api.descs| > 0 && api.descs[0] == Some(desc)
    ensures Poll(s, api) ==
              Poll(s.(dup := Ref(d), counts := Release(s.counts, s.dup) + multiset{d}, desc := desc),
                   api.(acquires := api.acquires[1..], requested := api.requested + [MonitorFormats],
                        duplications := api.duplications[1..], descs := api.descs[1..]))
  {
    var api1 := api.(acquires := api.acquires[1..]);
    assert s.(counts := AddRef(s.counts, Null)) == s;
    assert React(AccessLost, s, api1) == Recreate(s, api1);
  }

  /** A successful reply with a new frame ends the loop with the queried texture. */
  lemma NewFrameStep(s: Snapshot, api: Api, res: Obj, t: Obj, time: int)
    requires time != 0 && api.acquires == [Acquire(Ok, time, Ref(res))]
    requires |api.queries| > 0 && api.queries[0] == Made(t)
    ensures Poll(s, api) ==
              Stopped(Captured(t), s.(lastTex := Ref(t), counts := s.counts + multiset{t}),
                      api.(acquires := [], queries := api.queries[1..]))
  {
    var s1 := s.(counts := s.counts + multiset{res});
    var api1 := api.(acquires := []);
    assert Poll(s, api) == Finish(s1, api1, Ref(res));
    DropHeld(s.counts, Ref(res), Ref(t));
  }

  /** `DXGI_ERROR_WAIT_TIMEOUT`: the loop polls again with the state unchanged. */
  lemma TimeoutStep(s: Snapshot, api: Api)
    requires |api.acquires| > 0 && api.acquires[0] == Acquire(WaitTimeout, 0, Null)
    ensures Poll(s, api) == Poll(s, api.(acquires := api.acquires[1..]))
  {
    var api1 := api.(acquires := api.acquires[1..]);
    assert s.(counts := AddRef(s.counts, Null)) == s;
    assert React(WaitTimeout, s, api1) == Running(s, api1);
  }

  /** `DXGI_ERROR_INVALID_CALL` and a `ReleaseFrame` that succeeds: the frame is released and the loop polls again. */
  lemma ReleasedFrameStep(s: Snapshot, api: Api)
    requires |api.acquires| > 0 && api.acquires[0] == Acquire(InvalidCall, 0, Null)
    requires |api.frameReleases| > 0 && api.frameReleases[0] == Ok
    ensures Poll(s, api) == Poll(s, api.(acquires := api.acquires[1..], frameReleases := api.frameReleases[1..]))
  {
    var api1 := api.(acquires := api.acquires[1..]);
    assert s.(counts := AddRef(s.counts, Null)) == s;
    assert React(InvalidCall, s, api1) == Running(s, api1.(frameReleases := api.frameReleases[1..]));
  }

  /** `DXGI_ERROR_INVALID_CALL` and a `ReleaseFrame` that reports lost access: the stream is rebuilt and the loop polls again. */
  lemma ReleaseLostStep(s: Snapshot, api: Api, d: Obj, desc: OutputDesc)
    requires |api.acquires| > 0 && api.acquires[0] == Acquire(InvalidCall, 0, Null)
    requires |api.frameReleases| > 0 && api.frameReleases[0] == AccessLost
    requires |api.duplications| > 0 && api.duplications[0] == Made(d)
    requires |api.descs| > 0 && api.descs[0] == Some(desc)
    ensures Poll(s, api) ==
              Poll(s.(dup := Ref(d), counts := Release(s.counts, s.dup) + multiset{d}, desc := desc),
                   api.(acquires := api.acquires[1..], frameReleases := api.frameReleases[1..],
                        requested := api.requested + [MonitorFormats],
                        duplications := api.duplications[1..], descs := api.descs[1..]))
  {
    var api1 := api.(acquires := api.acquires[1..]);
    assert s.(counts := AddRef(s.counts, Null)) == s;
    assert React(InvalidCall, s, api1) == Recreate(s, api1.(frameReleases := api.frameReleases[1..]));
  }

  /** `DXGI_ERROR_INVALID_CALL` and a `ReleaseFrame` that fails otherwise: `take_screenshot` throws. */
  lemma ReleaseFailedStep(s: Snapshot, api: Api)
    requires |api.acquires| > 0 && api.acquires[0] == Acquire(InvalidCall, 0, Null)
    requires |api.frameReleases| > 0 && Failed(api.frameReleases[0]) && api.frameReleases[0] != AccessLost
    ensures Poll(s, api) ==
              Stopped(Threw(ReleaseFrameFailed, Named(s).name), Named(s),
                      api.(acquires := api.acquires[1..], frameReleases := api.frameReleases[1..]))
  {
    var api1 := api.(acquires := api.acquires[1..]);
    assert s.(counts := AddRef(s.counts, Null)) == s;
    assert React(InvalidCall, s, api1) == Throw(ReleaseFrameFailed, s, api1.(frameReleases := api.frameReleases[1..]));
  }

  /** Any other failure of `AcquireNextFrame`: `take_screenshot` throws. */
  lemma AcquireFailedStep(s: Snapshot, api: Api)
    requires |api.acquires| > 0 && api.acquires[0].hr == OtherFailure && api.acquires[0].resource.Null?
    ensures Poll(s, api) == Stopped(Threw(AcquireFailed, Named(s).name), Named(s), api.(acquires := api.acquires[1..]))
  {
    var api1 := api.(acquires := api.acquires[1..]);
    assert s.(counts := AddRef(s.counts, Null)) == s;
    assert React(OtherFailure, s, api1) == Throw(AcquireFailed, s, api1);
  }

  /** A new frame whose resource is not a texture: the resource is released and `take_screenshot` throws. */
  lemma QueryRefusedStep(s: Snapshot, api: Api, res: Obj, time: int)
    requires time != 0 && |api.acquires| > 0 && api.acquires[0] == Acquire(Ok, time, Ref(res))
    requires |api.queries| > 0 && api.queries[0] == Refused
    ensures Poll(s, api) ==
              Stopped(Threw(QueryFailed, Named(s).name), Named(s),
                      api.(acquires := api.acquires[1..], queries := api.queries[1..]))
  {
    var s1 := s.(counts := s.counts + multiset{res});
    var api1 := api.(acquires := api.acquires[1..]);
    assert Poll(s, api) == Finish(s1, api1, Ref(res));
    assert Release(AddRef(s1.counts, Null), Ref(res)) == s.counts by {
      Cancel(s.counts, Ref(res));
    }
  }

  /** With a bound stream, `take_screenshot` drops the previous frame and polls. */
  lemma BoundScreenshot(s: Snapshot, api: Api)
    requires s.dup.Ref?
    ensures Screenshot(s, api) == Poll(s.(lastTex := Null, counts := Release(s.counts, s.lastTex)), api)
  {
  }

  /** A lost stream, then a new frame: the poll loop rebuilds the stream once and returns the frame. */
  lemma LostThenFrame(s: Snapshot, api: Api, d: Obj, desc: OutputDesc, res: Obj, t: Obj)
    requires api.acquires == [Acquire(AccessLost, 0, Null), Acquire(Ok, 1, Ref(res))]
    requires |api.duplications| > 0 && api.duplications[0] == Made(d)
    requires |api.descs| > 0 && api.descs[0] == Some(desc)
    requires |api.queries| > 0 && api.queries[0] == Made(t)
    ensures var s2 := s.(dup := Ref(d), counts := Release(s.counts, s.dup) + multiset{d}, desc := desc);
            var api2 := api.(acquires := api.acquires[1..], requested := api.requested + [MonitorFormats],
                             duplications := api.duplications[1..], descs := api.descs[1..]);
            Poll(s, api) == Stopped(Captured(t), s2.(lastTex := Ref(t), counts := s2.counts + multiset{t}),
                                    api2.(acquires := [], queries := api2.queries[1..]))
  {
    LostStreamStep(s, api, d, desc);
    var s2 := s.(dup := Ref(d), counts := Release(s.counts, s.dup) + multiset{d}, desc := desc);
    var api2 := api.(acquires := api.acquires[1..], requested := api.requested + [MonitorFormats],
                     duplications := api.duplications[1..], descs := api.descs[1..]);
    assert api2.acquires == [Acquire(Ok, 1, Ref(res))];
    NewFrameStep(s2, api2, res, t, 1);
  }

  /**
    A lost stream during acquisition: exactly one rebuild (one more
    `DuplicateOutput1` call with the monitor's formats), the old stream
    released, and the retried acquisition returns the new frame.
   */
  lemma AccessLostRebuildsOnce(s: Snapshot, api: Api, d: Obj, desc: OutputDesc, res: Obj, t: Obj)
    requires s.dup.Ref?
    requires api.acquires == [Acquire(AccessLost, 0, Null), Acquire(Ok, 1, Ref(res))]
    requires |api.duplications| > 0 && api.duplications[0] == Made(d)
    requires |api.descs| > 0 && api.descs[0] == Some(desc)
    requires |api.queries| > 0 && api.queries[0] == Made(t)
    ensures var r := Screenshot(s, api);
            && r.shot == Captured(t)
            && r.s.dup == Ref(d) && r.s.desc == desc && r.s.lastTex == Ref(t)
            && r.api.requested == api.requested + [MonitorFormats]
            && r.s.counts == Release(Release(s.counts, s.lastTex), s.dup) + multiset{d, t}
  {
    var s1 := s.(lastTex := Null, counts := Release(s.counts, s.lastTex));
    BoundScreenshot(s, api);
    LostThenFrame(s1, api, d, desc, res, t);
    AddBoth(Release(s1.counts, s.dup), d, t);
  }

  lemma AddBoth(l: Ledger, d: Obj, t: Obj)
    ensures l + multiset{d} + multiset{t} == l + multiset{d, t}
  {
    forall o ensures (l + multiset{d} + multiset{t})[o] == (l + multiset{d, t})[o] {
    }
  }

  // ---------------------------------------------------------------------------
  // The monitor object
  // ---------------------------------------------------------------------------

  /** `class monitor`: raw pointers whose references it owns, except `device_`. */
  class Monitor {
    var output: Ptr
    var dup: Ptr
    var device: Ptr
    var desc: OutputDesc
    var lastTex: Ptr
    var name: string
    const ledger: Counter

    ghost function Snap(): Snapshot
      reads this, ledger
    {
      Snapshot(dup, desc, lastTex, name, ledger.counts)
    }

    /** Adopts the reference to `output` it is given; no stream and no frame yet, a zeroed descriptor. */
    constructor (counter: Counter, output: Ptr, device: Ptr)
      ensures ledger == counter && counter.counts == old(counter.counts)
      ensures this.output == output && this.device == device
      ensures dup == Null && lastTex == Null && desc == ZeroDesc && name == ""
    {
      ledger := counter;
      this.output := output;
      this.device := device;
      dup := Null;
      lastTex := Null;
      desc := ZeroDesc;
      name := "";
    }

    /** The destructor: releases `dup_`, `output_` and `last_tex_`, each once if non-null. */
    method Destroy()
      modifies ledger
      ensures ledger.counts == Release(Release(Release(old(ledger.counts), dup), output), lastTex)
    {
      ghost var l := ledger.counts;
      if dup.Ref? {
        ledger.counts := Release(ledger.counts, dup);
      } else {
        ReleaseNull(l);
      }
      l := Release(l, dup);
      if output.Ref? {
        ledger.counts := Release(ledger.counts, output);
      } else {
        ReleaseNull(l);
      }
      l := Release(l, output);
      if lastTex.Ref? {
        ledger.counts := Release(ledger.counts, lastTex);
      } else {
        ReleaseNull(l);
      }
    }

    /** `name()`: fills the cache from the descriptor's device name the first time it is non-empty. */
    method Name() returns (n: string)
      modifies this`name
      ensures name == Named(old(Snap())).name && n == name
    {
      if |name| > 0 {
        return name;
      }
      name := desc.deviceName;
      return name;
    }

    /** `hdr_on()`. */
    predicate HdrOn()
      reads this
    {
      desc.colorSpace == RGB_FULL_G2084_NONE_P2020
    }

    /** `virtual_position()`: the top-left corner of the desktop rectangle. */
    function VirtualPosition(): (int, int)
      reads this
    {
      (desc.desktop.left, desc.desktop.top)
    }

    /** `resolution()`: the extent of the desktop rectangle. */
    function Resolution(): (r: (int, int))
      reads this
      ensures VirtualPosition().0 + r.0 == desc.desktop.right
      ensures VirtualPosition().1 + r.1 == desc.desktop.bottom
    {
      (desc.desktop.right - desc.desktop.left, desc.desktop.bottom - desc.desktop.top)
    }

    /**
      `sdr_white_level()`: looks the path up through the monitor's `HMONITOR`
      (`monitorInfo` is what `GetMonitorInfoW` reports for a handle) and then
      the white level of the path's target.
     */
    method SdrWhiteLevel(monitorInfo: nat -> Option<string>, rounds: seq<ConfigRound>, whiteLevel: nat -> Option<nat>)
      returns (level: Option<real>)
      ensures level == WhiteLevel(LookupPath(monitorInfo(desc.monitor), rounds), whiteLevel)
    {
      var lookup := GetPathInfo(monitorInfo(desc.monitor), rounds);
      match lookup
      case Unsettled =>
        return None;
      case NotFound =>
        return Some(DefaultWhiteLevel);
      case Found(path) =>
        var white := whiteLevel(path.target);
        if white.None? {
          return Some(DefaultWhiteLevel);
        }
        return Some(white.value as real * 80.0 / 1000.0);
    }

    /** `update_output_desc()`: refreshes `desc_`, throwing when `GetDesc1` fails. */
    method UpdateOutputDesc(api: Api) returns (stop: Option<Shot>, rest: Api)
      modifies this`desc, this`name
      ensures Resume(stop, Snap(), rest) == UpdateDesc(old(Snap()), api)
    {
      rest := api;
      if |rest.descs| == 0 {
        return Some(Exhausted), rest;
      }
      var reply := rest.descs[0];
      rest := rest.(descs := rest.descs[1..]);
      if reply.None? {
        var n := Name();
        return Some(Threw(DescFailed, n)), rest;
      }
      desc := reply.value;
      return None, rest;
    }

    /** `recreate_output_duplication()`: the old stream is released and nulled before a new one is requested. */
    method RecreateOutputDuplication(api: Api) returns (stop: Option<Shot>, rest: Api)
      modifies this`dup, this`desc, this`name, ledger
      ensures Resume(stop, Snap(), rest) == Recreate(old(Snap()), api)
    {
      if dup.Ref? {
        ledger.counts := Release(ledger.counts, dup);
        dup := Null;
      }
      rest := api.(requested := api.requested + [MonitorFormats]);
      if |rest.duplications| == 0 {
        return Some(Exhausted), rest;
      }
      var reply := rest.duplications[0];
      rest := rest.(duplications := rest.duplications[1..]);
      if reply.Refused? {
        var n := Name();
        return Some(Threw(DuplicateFailed, n)), rest;
      }
      dup := Ref(reply.obj);
      ledger.counts := AddRef(ledger.counts, dup);
      stop, rest := UpdateOutputDesc(rest);
    }

    /** The end of `take_screenshot`: texture from resource, resource released, texture kept. */
    method TakeTexture(api: Api, resource: Ptr) returns (shot: Shot, rest: Api)
      modifies this`lastTex, this`name, ledger
      ensures Stopped(shot, Snap(), rest) == Finish(old(Snap()), api, resource)
    {
      rest := api;
      if resource.Null? {
        return Faulted, rest;
      }
      if |rest.queries| == 0 {
        return Exhausted, rest;
      }
      var reply := rest.queries[0];
      rest := rest.(queries := rest.queries[1..]);
      ledger.counts := AddRef(ledger.counts, Produced(reply));
      ledger.counts := Release(ledger.counts, resource);
      if reply.Refused? {
        var n := Name();
        return Threw(QueryFailed, n), rest;
      }
      lastTex := Ref(reply.obj);
      return Captured(reply.obj), rest;
    }

    /** How the poll loop of `take_screenshot` answers one `AcquireNextFrame` result. */
    method Answer(hr: HResult, api: Api) returns (stop: Option<Shot>, rest: Api)
      modifies this`dup, this`desc, this`name, ledger
      ensures Resume(stop, Snap(), rest) == React(hr, old(Snap()), api)
    {
      rest := api;
      stop := None;
      if hr == InvalidCall {
        if |rest.frameReleases| == 0 {
          return Some(Exhausted), rest;
        }
        var released := rest.frameReleases[0];
        rest := rest.(frameReleases := rest.frameReleases[1..]);
        if released == AccessLost {
          stop, rest := RecreateOutputDuplication(rest);
        } else if Failed(released) {
          var n := Name();
          stop := Some(Threw(ReleaseFrameFailed, n));
        }
      } else if hr == AccessLost {
        stop, rest := RecreateOutputDuplication(rest);
      } else if hr == WaitTimeout {
        // the source sleeps 20 ms and polls again
      } else if Failed(hr) {
        var n := Name();
        stop := Some(Threw(AcquireFailed, n));
      }
    }

    /** The part of `take_screenshot` before its loop: bind a stream if there is none, drop the last frame. */
    method Prepare(api: Api) returns (stop: Option<Shot>, rest: Api)
      modifies this`dup, this`desc, this`name, this`lastTex, ledger
      ensures stop.Some? ==> Stopped(stop.value, Snap(), rest) == Screenshot(old(Snap()), api)
      ensures stop.None? ==> Poll(Snap(), rest) == Screenshot(old(Snap()), api)
    {
      rest := api;
      stop := None;
      if dup.Null? {
        stop, rest := RecreateOutputDuplication(rest);
        if stop.Some? {
          return;
        }
      }
      ghost var start := Snap();
      assert Screenshot(old(Snap()), api) == Poll(start.(lastTex := Null, counts := Release(start.counts, start.lastTex)), rest);
      if lastTex.Ref? {
        ledger.counts := Release(ledger.counts, lastTex);
        lastTex := Null;
      } else {
        assert Release(start.counts, start.lastTex) == start.counts;
      }
      assert Snap() == start.(lastTex := Null, counts := Release(start.counts, start.lastTex));
    }

    /** The loop of `take_screenshot`: poll until a frame has been presented, then take its texture. */
    method PollFrames(api: Api) returns (shot: Shot, rest: Api)
      modifies this`dup, this`desc, this`name, this`lastTex, ledger
      ensures Stopped(shot, Snap(), rest) == Poll(old(Snap()), api)
    {
      rest := api;
      ghost var target := Poll(Snap(), rest);
      var presentTime := 0;
      var resource := Null;
      while presentTime == 0
        invariant presentTime == 0 ==> Poll(Snap(), rest) == target
        invariant presentTime != 0 ==> Finish(Snap(), rest, resource) == target
        decreases |rest.acquires|
      {
        if |rest.acquires| == 0 {
          return Exhausted, rest;
        }
        var a := rest.acquires[0];
        rest := rest.(acquires := rest.acquires[1..]);
        presentTime, resource := a.presentTime, a.resource;
        ledger.counts := AddRef(ledger.counts, a.resource);
        var stop;
        stop, rest := Answer(a.hr, rest);
        if stop.Some? {
          return stop.value, rest;
        }
      }
      shot, rest := TakeTexture(rest, resource);
    }

    /** `take_screenshot()`. */
    method TakeScreenshot(api: Api) returns (shot: Shot, rest: Api)
      modifies this`dup, this`desc, this`name, this`lastTex, ledger
      ensures Stopped(shot, Snap(), rest) == Screenshot(old(Snap()), api)
    {
      var stop;
      stop, rest := Prepare(api);
      if stop.Some? {
        return stop.value, rest;
      }
      shot, rest := PollFrames(rest);
    }
  }
}
