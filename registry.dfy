/**
 * The recorder registry as a value: the pool of native recorders by id, their
 * auto-destroy flags, the metering target and timer, the native recorders
 * released so far and the events emitted so far. Each command and callback
 * of the module is a function from one registry to the next (and, for a
 * command, the reply to its promise); the lemmas state what the module
 * promises about them.
 */
module RecorderSpec {
  import opened Wrappers
  import opened RecorderConfig
  import opened RecorderEvents

  /** An Android `MediaRecorder`: a native object compared by identity. */
  class MediaRecorder {
    constructor () {}
  }

  /** The lowest Android SDK version on which a recording can be paused. */
  const MinPauseSdk := 24

  datatype Registry = Registry(
    pool: map<int, MediaRecorder>,
    autoDestroy: map<int, bool>,
    meteringId: Option<int>,
    meteringRecorder: Option<MediaRecorder>,
    interval: int,
    frameId: int,
    timer: Option<int>,            // the period of the scheduled metering timer, or None when there is none
    released: seq<MediaRecorder>,  // every native recorder released, in order
    events: seq<Event>)

  /** The codes a command's promise is rejected with. */
  datatype ErrorCode = InvalidPath | NotFound | NotSupported | StartFail | StopFail | PauseFail | PrepareFail {
    function Code(): string {
      match this
      case InvalidPath => "invalidpath"
      case NotFound => "notfound"
      case NotSupported => "notsupported"
      case StartFail => "startfail"
      case StopFail => "stopfail"
      case PauseFail => "pausefail"
      case PrepareFail => "preparefail"
    }
  }

  /** How a command settles its promise. */
  datatype Reply =
    | Resolved
    | ResolvedPrepared(config: RecordingConfig, path: string)
    | Rejected(code: ErrorCode)

  datatype Outcome = Outcome(next: Registry, reply: Reply)

  function Initial(): Registry {
    Registry(map[], map[], None, None, 0, 0, None, [], [])
  }

  /**
   * What every reachable registry satisfies: each live id has an
   * auto-destroy flag, no native recorder is registered under two ids, the
   * metering target is a live recorder under its own id, the counters are in
   * range, and a released recorder is never live and never released twice.
   */
  ghost predicate Inv(s: Registry) {
    && s.pool.Keys == s.autoDestroy.Keys
    && (forall a, b :: a in s.pool && b in s.pool && a != b ==> s.pool[a] != s.pool[b])
    && (s.meteringId.Some? <==> s.meteringRecorder.Some?)
    && (s.meteringId.Some? ==> s.meteringId.value in s.pool && s.pool[s.meteringId.value] == s.meteringRecorder.value)
    && s.interval >= 0
    && (s.timer.Some? ==> s.timer.value > 0)
    && IsInt32(s.frameId)
    && (forall i :: 0 <= i < |s.released| ==> s.released[i] !in s.pool.Values)
    && (forall i, j :: 0 <= i < j < |s.released| ==> s.released[i] != s.released[j])
  }

  /** A native recorder `prepare` may install: one never registered nor released. */
  ghost predicate FreshFor(s: Registry, h: MediaRecorder) {
    h !in s.pool.Values && h !in s.released
  }

  function Emit(s: Registry, id: Option<int>, name: string, data: EventData): (t: Registry)
    ensures t.events == s.events + [Event(ChannelName(id), name, data)]
  {
    s.(events := s.events + [Event(ChannelName(id), name, data)])
  }

  /** `stopMeteringTimer`: cancels a scheduled timer and restarts the frame count. */
  function StopTimer(s: Registry): (t: Registry)
    ensures t.timer.None?
    ensures s.timer.Some? ==> t.frameId == 0
    ensures s.timer.None? ==> t == s
    ensures t.pool == s.pool && t.autoDestroy == s.autoDestroy && t.events == s.events
    ensures t.meteringId == s.meteringId && t.meteringRecorder == s.meteringRecorder
    ensures t.interval == s.interval && t.released == s.released
  {
    if s.timer.Some? then s.(timer := None, frameId := 0) else s
  }

  /** Whether `id` is the metering target (the source compares boxed Integers; see `BoxedIds`). */
  predicate IsMeteringTarget(s: Registry, id: int) {
    s.meteringId == Some(id)
  }

  /**
   * `destroy`: releases the recorder under `id`, forgets it, drops it as the
   * metering target and emits an "info" event; an absent id is left alone.
   */
  function Destroy(s: Registry, id: int): (t: Registry)
    ensures id !in t.pool
    ensures id !in s.pool ==> t == s
    ensures t.pool == s.pool - {id}
    ensures id in s.pool ==> t.autoDestroy == s.autoDestroy - {id}
    ensures t.interval == s.interval && t.timer == s.timer && t.frameId == s.frameId
  {
    if id in s.pool then
      var target := IsMeteringTarget(s, id);
      var forgotten := s.(pool := s.pool - {id},
                          autoDestroy := s.autoDestroy - {id},
                          meteringId := if target then None else s.meteringId,
                          meteringRecorder := if target then None else s.meteringRecorder,
                          released := s.released + [s.pool[id]]);
      Emit(forgotten, Some(id), "info", DestroyedInfo)
    else
      s
  }

  predicate ValidPath(path: Option<string>) {
    path.Some? && path.value != ""
  }

  /**
   * `prepare`: rejects a null or empty path; otherwise destroys any recorder
   * under `id`, installs the new native recorder `h` with its auto-destroy
   * flag, sets the module-wide metering interval and then asks the native
   * recorder to prepare (`nativeOk`). `resolve` is the file-path resolution.
   */
  function Prepare(s: Registry, id: int, path: Option<string>, options: RecorderOptions,
                   h: MediaRecorder, resolve: string -> string, nativeOk: bool): (o: Outcome)
    ensures !ValidPath(path) ==> o == Outcome(s, Rejected(InvalidPath))
    ensures ValidPath(path) ==> o.next.pool == s.pool[id := h]
    ensures ValidPath(path) ==> o.next.autoDestroy == s.autoDestroy[id := options.autoDestroy.GetOr(true)]
    ensures ValidPath(path) ==> o.next.interval == MeteringIntervalOf(options)
    ensures ValidPath(path) && nativeOk ==> o.reply == ResolvedPrepared(ResolveConfig(path.value, options), resolve(path.value))
    ensures ValidPath(path) && !nativeOk ==> o.reply == Rejected(PrepareFail)
  {
    if !ValidPath(path) then Outcome(s, Rejected(InvalidPath))
    else
      var d := Destroy(s, id);
      var installed := d.(pool := d.pool[id := h],
                          autoDestroy := d.autoDestroy[id := options.autoDestroy.GetOr(true)],
                          interval := MeteringIntervalOf(options));
      var reply := if nativeOk then ResolvedPrepared(ResolveConfig(path.value, options), resolve(path.value))
                   else Rejected(PrepareFail);
      Outcome(installed, reply)
  }

  /**
   * `record`: starts the native recorder (`nativeOk`); when a metering
   * interval is configured it becomes the metering target and a timer with
   * that period is scheduled.
   */
  function Record(s: Registry, id: int, nativeOk: bool): (o: Outcome)
    ensures id !in s.pool ==> o == Outcome(s, Rejected(NotFound))
    ensures id in s.pool && !nativeOk ==> o == Outcome(s, Rejected(StartFail))
    ensures o.next.pool == s.pool && o.next.autoDestroy == s.autoDestroy && o.next.events == s.events
    ensures o.reply == Resolved <==> id in s.pool && nativeOk
  {
    if id !in s.pool then Outcome(s, Rejected(NotFound))
    else if !nativeOk then Outcome(s, Rejected(StartFail))
    else if s.interval > 0 then
      Outcome(s.(meteringId := Some(id), meteringRecorder := Some(s.pool[id]), timer := Some(s.interval)), Resolved)
    else
      Outcome(s, Resolved)
  }

  /**
   * `stop`: stops the native recorder (`nativeOk`), cancels the metering
   * timer when this recorder is the target, and destroys the recorder when
   * its auto-destroy flag is set. A missing flag is the `NullPointerException`
   * of unboxing it, which the source reports as "stopfail".
   */
  function Stop(s: Registry, id: int, nativeOk: bool): (o: Outcome)
    ensures id !in s.pool ==> o == Outcome(s, Rejected(NotFound))
    ensures id in s.pool && !nativeOk ==> o == Outcome(s, Rejected(StopFail))
  {
    if id !in s.pool then Outcome(s, Rejected(NotFound))
    else if !nativeOk then Outcome(s, Rejected(StopFail))
    else
      var stopped := if IsMeteringTarget(s, id) then StopTimer(s) else s;
      if id !in stopped.autoDestroy then Outcome(stopped, Rejected(StopFail))
      else if stopped.autoDestroy[id] then Outcome(Destroy(stopped, id), Resolved)
      else Outcome(stopped, Resolved)
  }

  /** `pause24`: pauses the native recorder (`nativeOk`) and cancels the metering timer when it is the target. */
  function Pause24(s: Registry, id: int, nativeOk: bool): (o: Outcome)
    ensures id !in s.pool ==> o == Outcome(s, Rejected(NotFound))
    ensures id in s.pool && !nativeOk ==> o == Outcome(s, Rejected(PauseFail))
    ensures o.next.pool == s.pool && o.next.autoDestroy == s.autoDestroy && o.next.events == s.events
    ensures o.next.meteringId == s.meteringId && o.next.meteringRecorder == s.meteringRecorder
    ensures o.reply == Resolved <==> id in s.pool && nativeOk
  {
    if id !in s.pool then Outcome(s, Rejected(NotFound))
    else if !nativeOk then Outcome(s, Rejected(PauseFail))
    else Outcome(if IsMeteringTarget(s, id) then StopTimer(s) else s, Resolved)
  }

  /** `pause`: refused below SDK 24 before the id is even looked up. */
  function Pause(s: Registry, sdk: int, id: int, nativeOk: bool): (o: Outcome)
    ensures sdk < MinPauseSdk ==> o == Outcome(s, Rejected(NotSupported))
    ensures sdk >= MinPauseSdk ==> o == Pause24(s, id, nativeOk)
  {
    if sdk < MinPauseSdk then Outcome(s, Rejected(NotSupported)) else Pause24(s, id, nativeOk)
  }

  /** `getRecorderId`: the id a native recorder is registered under, if any. */
  ghost function FindRecorderId(pool: map<int, MediaRecorder>, h: MediaRecorder): (r: Option<int>)
    ensures r.Some? ==> r.value in pool && pool[r.value] == h
    ensures r.None? ==> forall k :: k in pool ==> pool[k] != h
  {
    if exists k :: k in pool && pool[k] == h then
      var k :| k in pool && pool[k] == h; Some(k)
    else None
  }

  /** In a pool without shared recorders, any id found for a recorder is the one `FindRecorderId` names. */
  lemma FindRecorderIdUnique(pool: map<int, MediaRecorder>, h: MediaRecorder, found: Option<int>)
    requires forall a, b :: a in pool && b in pool && a != b ==> pool[a] != pool[b]
    requires found.Some? ==> found.value in pool && pool[found.value] == h
    requires found.None? ==> forall k :: k in pool ==> pool[k] != h
    ensures found == FindRecorderId(pool, h)
  {
    var r := FindRecorderId(pool, h);
    if found.Some? {
      assert exists k :: k in pool && pool[k] == h by {
        assert found.value in pool && pool[found.value] == h;
      }
      assert r.Some?;
      assert pool[r.value] == pool[found.value];
      assert r.value == found.value;
    }
  }

  /** `onError`: an "error" event on the recorder's channel, then `destroy` of its id. */
  ghost function OnError(s: Registry, h: MediaRecorder, what: int, extra: int): (t: Registry)
    ensures var id := FindRecorderId(s.pool, h);
      && (id.Some? ==> id.value !in t.pool)
      && (id.Some? ==> t.pool == s.pool - {id.value} && t.autoDestroy == s.autoDestroy - {id.value})
      && (id.None? ==> t.pool == s.pool && t.autoDestroy == s.autoDestroy && t.released == s.released)
      && (s.meteringId != id ==> t.meteringId == s.meteringId && t.meteringRecorder == s.meteringRecorder)
      && t.interval == s.interval && t.timer == s.timer && t.frameId == s.frameId
      && |t.events| > |s.events|
      && t.events[|s.events|] == Event(ChannelName(id), "error", NativeError(what, extra))
  {
    var id := FindRecorderId(s.pool, h);
    var reported := Emit(s, id, "error", NativeError(what, extra));
    if id.Some? then Destroy(reported, id.value) else reported
  }

  /** `onInfo`: an "info" event on the recorder's channel and nothing else. */
  ghost function OnInfo(s: Registry, h: MediaRecorder, what: int, extra: int): (t: Registry)
    ensures t.(events := s.events) == s
    ensures t.events == s.events + [Event(ChannelName(FindRecorderId(s.pool, h)), "info", NativeInfo(what, extra))]
  {
    Emit(s, FindRecorderId(s.pool, h), "info", NativeInfo(what, extra))
  }

  /**
   * One run of the metering timer task: with a target set, a "meter" event
   * numbered by the current frame on the target's channel, and the frame
   * count advanced.
   */
  function Tick(s: Registry, amplitude: int): (t: Registry)
    requires IsInt32(s.frameId)
    ensures IsInt32(t.frameId)
    ensures t.pool == s.pool && t.autoDestroy == s.autoDestroy && t.timer == s.timer
    ensures t.meteringId == s.meteringId && t.meteringRecorder == s.meteringRecorder
    ensures t.interval == s.interval && t.released == s.released
    ensures s.meteringId.None? || s.meteringRecorder.None? ==> t == s
  {
    if s.meteringId.Some? && s.meteringRecorder.Some? then
      Emit(s.(frameId := Inc32(s.frameId)), s.meteringId, "meter", MeterSample(s.frameId, amplitude))
    else
      s
  }

  // ---------------------------------------------------------------------
  // destroy

  lemma DestroyPresent(s: Registry, id: int)
    requires Inv(s) && id in s.pool
    ensures var t := Destroy(s, id);
      && t.events == s.events + [Event(ChannelName(Some(id)), "info", DestroyedInfo)]
      && t.released == s.released + [s.pool[id]]
      && t.pool == s.pool - {id} && t.autoDestroy == s.autoDestroy - {id}
      && t.meteringId != Some(id)
      && (s.meteringId == Some(id) ==> t.meteringId.None? && t.meteringRecorder.None?)
      && (s.meteringId != Some(id) ==> t.meteringId == s.meteringId && t.meteringRecorder == s.meteringRecorder)
      && t.interval == s.interval && t.timer == s.timer && t.frameId == s.frameId
      && s.pool[id] !in t.pool.Values
  {
    var t := Destroy(s, id);
    forall k | k in t.pool ensures t.pool[k] != s.pool[id] {
      assert t.pool[k] == s.pool[k];
    }
  }

  /** Destroying twice is destroying once: the second call finds nothing. */
  lemma DestroyIdempotent(s: Registry, id: int)
    ensures Destroy(Destroy(s, id), id) == Destroy(s, id)
  {
  }

  lemma DestroyPreservesInv(s: Registry, id: int)
    requires Inv(s)
    ensures Inv(Destroy(s, id))
  {
    if id in s.pool {
      DestroyPresent(s, id);
    }
  }

  // ---------------------------------------------------------------------
  // prepare

  /**
   * A valid prepare replaces: the old recorder under `id` (if any) is
   * released with one "info" event, the new one is installed whether or not
   * the native prepare succeeds, and no other id is touched. A replaced
   * metering target is dropped, but its timer keeps running and the frame
   * count is not reset.
   */
  lemma PrepareReplaces(s: Registry, id: int, path: Option<string>, options: RecorderOptions,
                        h: MediaRecorder, resolve: string -> string, nativeOk: bool)
    requires Inv(s) && ValidPath(path)
    ensures var t := Prepare(s, id, path, options, h, resolve, nativeOk).next;
      && t == Prepare(s, id, path, options, h, resolve, !nativeOk).next
      && t.pool[id] == h
      && t.autoDestroy[id] == (options.autoDestroy.None? || options.autoDestroy.value)
      && (forall k :: k in s.pool && k != id ==> k in t.pool && t.pool[k] == s.pool[k])
      && (id in s.pool ==> t.released == s.released + [s.pool[id]]
                           && t.events == s.events + [Event(ChannelName(Some(id)), "info", DestroyedInfo)])
      && (id !in s.pool ==> t.released == s.released && t.events == s.events)
      && (s.meteringId == Some(id) ==> t.meteringId.None? && t.meteringRecorder.None?)
      && (s.meteringId != Some(id) ==> t.meteringId == s.meteringId && t.meteringRecorder == s.meteringRecorder)
      && t.timer == s.timer && t.frameId == s.frameId
  {
  }

  lemma PreparePreservesInv(s: Registry, id: int, path: Option<string>, options: RecorderOptions,
                            h: MediaRecorder, resolve: string -> string, nativeOk: bool)
    requires Inv(s) && FreshFor(s, h)
    ensures Inv(Prepare(s, id, path, options, h, resolve, nativeOk).next)
  {
    if ValidPath(path) {
      DestroyPreservesInv(s, id);
      var d := Destroy(s, id);
      assert h !in d.released by {
        if id in s.pool {
          assert s.pool[id] in s.pool.Values;
        }
      }
    }
  }

  /**
   * The metering interval is one value for the whole module: the last valid
   * prepare decides it, whichever recorder it was for.
   */
  lemma LastPrepareSetsInterval(s: Registry, id1: int, path1: Option<string>, options1: RecorderOptions,
                                h1: MediaRecorder, ok1: bool,
                                id2: int, path2: Option<string>, options2: RecorderOptions,
                                h2: MediaRecorder, ok2: bool, resolve: string -> string)
    requires ValidPath(path2)
    ensures var t := Prepare(Prepare(s, id1, path1, options1, h1, resolve, ok1).next,
                             id2, path2, options2, h2, resolve, ok2).next;
      t.interval == MeteringIntervalOf(options2) && t.pool[id2] == h2
  {
  }

  // ---------------------------------------------------------------------
  // record, stop, pause

  /** A successful record makes the recorder the metering target exactly when metering is configured. */
  lemma RecordTarget(s: Registry, id: int)
    requires Inv(s) && id in s.pool
    ensures var t := Record(s, id, true).next;
      && (s.interval > 0 ==> t.meteringId == Some(id) && t.meteringRecorder == Some(s.pool[id]) && t.timer == Some(s.interval))
      && (s.interval == 0 ==> t == s)
      && t.frameId == s.frameId && t.interval == s.interval && t.released == s.released
      && Inv(t)
  {
  }

  lemma RecordPreservesInv(s: Registry, id: int, nativeOk: bool)
    requires Inv(s)
    ensures Inv(Record(s, id, nativeOk).next)
  {
  }

  /**
   * A successful stop removes the recorder exactly when its auto-destroy
   * flag is set; when it is the metering target the timer is cancelled and
   * the frame count restarts, while the target itself survives unless the
   * recorder is destroyed.
   */
  lemma StopSucceeds(s: Registry, id: int)
    requires Inv(s) && id in s.pool
    ensures var o := Stop(s, id, true);
      && o.reply == Resolved
      && (id in o.next.pool <==> !s.autoDestroy[id])
      && (s.meteringId == Some(id) ==> o.next.timer.None? && (s.timer.Some? ==> o.next.frameId == 0))
      && (s.meteringId == Some(id) && !s.autoDestroy[id] ==> o.next.meteringId == Some(id) && o.next.meteringRecorder == s.meteringRecorder)
      && (s.meteringId != Some(id) ==> o.next.timer == s.timer && o.next.frameId == s.frameId)
      && (s.autoDestroy[id] ==> o.next == Destroy(if s.meteringId == Some(id) then StopTimer(s) else s, id))
      && (s.autoDestroy[id] ==>
            && o.next.pool == s.pool - {id} && o.next.autoDestroy == s.autoDestroy - {id}
            && o.next.released == s.released + [s.pool[id]]
            && o.next.events == s.events + [Event(ChannelName(Some(id)), "info", DestroyedInfo)]
            && o.next.meteringId != Some(id))
      && (!s.autoDestroy[id] ==>
            && o.next == (if s.meteringId == Some(id) then StopTimer(s) else s)
            && o.next.pool == s.pool && o.next.autoDestroy == s.autoDestroy
            && o.next.released == s.released && o.next.events == s.events)
      && o.next.interval == s.interval
  {
  }

  lemma StopPreservesInv(s: Registry, id: int, nativeOk: bool)
    requires Inv(s)
    ensures Inv(Stop(s, id, nativeOk).next)
  {
    if id in s.pool && nativeOk {
      var stopped := if IsMeteringTarget(s, id) then StopTimer(s) else s;
      assert Inv(stopped);
      if stopped.autoDestroy[id] {
        DestroyPreservesInv(stopped, id);
      }
    }
  }

  /** Below SDK 24 pause is refused even for an id that is not registered. */
  lemma PauseUnsupportedBeforeLookup(s: Registry, sdk: int, id: int, nativeOk: bool)
    requires sdk < MinPauseSdk && id !in s.pool
    ensures Pause(s, sdk, id, nativeOk).reply == Rejected(NotSupported)
    ensures Pause24(s, id, nativeOk).reply == Rejected(NotFound)
  {
  }

  /**
   * A successful pause on SDK 24 or later cancels the metering timer and
   * restarts the frame count when the recorder is the target, keeps that
   * target, and touches nothing when it is not.
   */
  lemma PauseSucceeds(s: Registry, sdk: int, id: int)
    requires sdk >= MinPauseSdk && id in s.pool
    ensures var o := Pause(s, sdk, id, true);
      && o.reply == Resolved
      && (s.meteringId == Some(id) ==> o.next == StopTimer(s))
      && (s.meteringId == Some(id) ==> o.next.timer.None? && (s.timer.Some? ==> o.next.frameId == 0)
                                       && (s.timer.None? ==> o.next.frameId == s.frameId)
                                       && o.next.meteringId == Some(id))
      && (s.meteringId != Some(id) ==> o.next == s)
      && o.next.interval == s.interval && o.next.released == s.released
  {
  }

  lemma PausePreservesInv(s: Registry, sdk: int, id: int, nativeOk: bool)
    requires Inv(s)
    ensures Inv(Pause(s, sdk, id, nativeOk).next)
  {
  }

  // ---------------------------------------------------------------------
  // callbacks

  /**
   * An error on a registered recorder is reported on its own channel, and
   * then the recorder is destroyed: its id is gone and the recorder released.
   */
  lemma OnErrorDestroys(s: Registry, h: MediaRecorder, id: int, what: int, extra: int)
    requires Inv(s) && id in s.pool && s.pool[id] == h
    ensures var t := OnError(s, h, what, extra);
      && t == Destroy(Emit(s, Some(id), "error", NativeError(what, extra)), id)
      && t.pool == s.pool - {id} && t.autoDestroy == s.autoDestroy - {id}
      && (s.meteringId == Some(id) ==> t.meteringId.None? && t.meteringRecorder.None?)
      && (s.meteringId != Some(id) ==> t.meteringId == s.meteringId && t.meteringRecorder == s.meteringRecorder)
      && t.interval == s.interval && t.timer == s.timer && t.frameId == s.frameId
      && id !in t.pool && h !in t.pool.Values
      && t.released == s.released + [h]
      && t.events == s.events + [Event(ChannelName(Some(id)), "error", NativeError(what, extra)),
                                 Event(ChannelName(Some(id)), "info", DestroyedInfo)]
      && Inv(t)
  {
    var r := FindRecorderId(s.pool, h);
    assert r == Some(id);
    var reported := Emit(s, r, "error", NativeError(what, extra));
    DestroyPresent(reported, id);
    DestroyPreservesInv(reported, id);
  }

  /** An error from a recorder the module does not know goes to the "null" channel and changes nothing else. */
  lemma OnErrorUnknown(s: Registry, h: MediaRecorder, what: int, extra: int)
    requires forall k :: k in s.pool ==> s.pool[k] != h
    ensures OnError(s, h, what, extra) == Emit(s, None, "error", NativeError(what, extra))
  {
  }

  lemma OnInfoPreservesInv(s: Registry, h: MediaRecorder, what: int, extra: int)
    requires Inv(s)
    ensures Inv(OnInfo(s, h, what, extra))
  {
  }

  // ---------------------------------------------------------------------
  // metering

  /** The registry after one tick per sampled amplitude. */
  function Ticks(s: Registry, amplitudes: seq<int>): (t: Registry)
    requires IsInt32(s.frameId)
    ensures IsInt32(t.frameId)
    ensures t.meteringId == s.meteringId && t.meteringRecorder == s.meteringRecorder
    decreases |amplitudes|
  {
    if amplitudes == [] then s else Ticks(Tick(s, amplitudes[0]), amplitudes[1..])
  }

  /**
   * While a target is set, successive ticks emit "meter" events on the
   * target's channel numbered by consecutive frames of the `int` counter,
   * starting at the current frame count and wrapping past the largest int.
   */
  lemma TicksNumberFrames(s: Registry, amplitudes: seq<int>)
    requires IsInt32(s.frameId) && s.meteringId.Some? && s.meteringRecorder.Some?
    ensures var t := Ticks(s, amplitudes);
      && |t.events| == |s.events| + |amplitudes|
      && t.events[..|s.events|] == s.events
      && t.frameId == FrameAfter(s.frameId, |amplitudes|)
      && forall i :: 0 <= i < |amplitudes| ==>
           t.events[|s.events| + i] == Event(ChannelName(s.meteringId), "meter", MeterSample(FrameAfter(s.frameId, i), amplitudes[i]))
  {
    TicksLength(s, amplitudes);
    forall i | 0 <= i < |amplitudes|
      ensures Ticks(s, amplitudes).events[|s.events| + i]
              == Event(ChannelName(s.meteringId), "meter", MeterSample(FrameAfter(s.frameId, i), amplitudes[i]))
    {
      TicksEventAt(s, amplitudes, i);
    }
  }

  /** With a target set, n ticks keep the old events as a prefix, add n more and count n frames. */
  lemma {:induction false} TicksLength(s: Registry, amplitudes: seq<int>)
    requires IsInt32(s.frameId) && s.meteringId.Some? && s.meteringRecorder.Some?
    ensures var t := Ticks(s, amplitudes);
      && |t.events| == |s.events| + |amplitudes|
      && t.events[..|s.events|] == s.events
      && t.frameId == FrameAfter(s.frameId, |amplitudes|)
    decreases |amplitudes|
  {
    if amplitudes != [] {
      var s1 := Tick(s, amplitudes[0]);
      TickMeters(s, amplitudes[0]);
      TicksLength(s1, amplitudes[1..]);
      var t := Ticks(s1, amplitudes[1..]);
      assert t == Ticks(s, amplitudes);
      assert t.events[..|s.events|] == t.events[..|s1.events|][..|s.events|];
      assert FrameAfter(s.frameId, |amplitudes|) == FrameAfter(s1.frameId, |amplitudes[1..]|);
    }
  }

  /** The i-th event appended by a run of ticks is the meter of the i-th amplitude under the i-th next frame. */
  lemma {:induction false} TicksEventAt(s: Registry, amplitudes: seq<int>, i: nat)
    requires IsInt32(s.frameId) && s.meteringId.Some? && s.meteringRecorder.Some?
    requires i < |amplitudes|
    ensures |Ticks(s, amplitudes).events| > |s.events| + i
    ensures Ticks(s, amplitudes).events[|s.events| + i]
            == Event(ChannelName(s.meteringId), "meter", MeterSample(FrameAfter(s.frameId, i), amplitudes[i]))
    decreases i
  {
    var s1 := Tick(s, amplitudes[0]);
    TickMeters(s, amplitudes[0]);
    var t := Ticks(s1, amplitudes[1..]);
    assert t == Ticks(s, amplitudes);
    TicksLength(s1, amplitudes[1..]);
    if i == 0 {
      assert t.events[|s.events|] == t.events[..|s1.events|][|s.events|];
    } else {
      TicksEventAt(s1, amplitudes[1..], i - 1);
      assert |s1.events| + (i - 1) == |s.events| + i;
      assert FrameAfter(s1.frameId, i - 1) == FrameAfter(s.frameId, i);
      assert s1.meteringId == s.meteringId;
      assert amplitudes[1..][i - 1] == amplitudes[i];
    }
  }

  /** One tick with a target appends exactly one "meter" event and increments the frame count. */
  lemma TickMeters(s: Registry, amplitude: int)
    requires IsInt32(s.frameId) && s.meteringId.Some? && s.meteringRecorder.Some?
    ensures Tick(s, amplitude) == s.(frameId := Inc32(s.frameId),
                                     events := s.events + [Event(ChannelName(s.meteringId), "meter", MeterSample(s.frameId, amplitude))])
  {
  }

  /**
   * Ticks only append, and everything they append is on the target's
   * channel; with no target they emit nothing.
   */
  lemma {:induction false} TicksOnTargetChannel(s: Registry, amplitudes: seq<int>)
    requires IsInt32(s.frameId)
    ensures var t := Ticks(s, amplitudes);
      && |t.events| >= |s.events| && t.events[..|s.events|] == s.events
      && (forall i :: |s.events| <= i < |t.events| ==> t.events[i].channel == ChannelName(s.meteringId))
      && (s.meteringId.None? || s.meteringRecorder.None? ==> t.events == s.events)
    decreases |amplitudes|
  {
    if amplitudes != [] {
      var s1 := Tick(s, amplitudes[0]);
      TicksOnTargetChannel(s1, amplitudes[1..]);
      var t := Ticks(s, amplitudes);
      assert t == Ticks(s1, amplitudes[1..]);
      assert s1.events[..|s.events|] == s.events;
      assert t.events[..|s1.events|] == s1.events;
      forall i | |s.events| <= i < |t.events|
        ensures t.events[i].channel == ChannelName(s.meteringId)
      {
        if i < |s1.events| {
          assert t.events[i] == s1.events[i];
        }
      }
    }
  }

  /** A silent sample is reported at the -160 dB floor with raw value 0. */
  lemma TickSilence(s: Registry)
    requires IsInt32(s.frameId) && s.meteringId.Some? && s.meteringRecorder.Some?
    ensures Tick(s, 0).events == s.events + [Event(ChannelName(s.meteringId), "meter", Meter(s.frameId, Level(SilenceLevel), 0))]
  {
  }

  lemma TickPreservesInv(s: Registry, amplitude: int)
    requires Inv(s)
    ensures Inv(Tick(s, amplitude))
  {
  }

  /** With the invariant, a tick only ever reports on a live recorder's channel. */
  lemma TickReportsLiveRecorder(s: Registry, amplitude: int)
    requires Inv(s) && |Tick(s, amplitude).events| > |s.events|
    ensures exists id :: id in s.pool && Tick(s, amplitude).events[|s.events|].channel == ChannelName(Some(id))
  {
  }
}
