/**
 * The Android recorder module: a registry of native recorders keyed by the
 * ids JavaScript chooses, with one method per bridge command and per native
 * callback. Every method leaves the module in the state the corresponding
 * `RecorderSpec` function computes from the old one, and keeps `Valid()`.
 *
 * Native calls are inputs: `nativeOk` says whether `MediaRecorder.prepare`,
 * `start`, `stop` or `pause` returned normally, `amplitude` is what
 * `getMaxAmplitude` returned, and `sdk` is the running Android version.
 */
module RecorderModule {
  import opened Wrappers
  import opened RecorderConfig
  import opened RecorderEvents
  import Spec = RecorderSpec

  lemma EmptyWithoutMembers(u: set<int>)
    requires forall k :: k !in u
    ensures u == {}
  {
    assert forall k :: k in u <==> k in {};
  }

  /** A non-empty set of ids has a member to visit next. */
  lemma HasMember(u: set<int>)
    requires u != {}
    ensures exists k :: k in u
  {
    if forall k :: k !in u {
      EmptyWithoutMembers(u);
    }
  }

  class AudioRecorderModule {
    var recorderPool: map<int, Spec.MediaRecorder>
    var recorderAutoDestroy: map<int, bool>
    var meteringRecorderId: Option<int>
    var meteringRecorder: Option<Spec.MediaRecorder>
    var meteringInterval: int
    var meteringFrameId: int
    var meteringUpdateTimer: Option<int>   // the period of the scheduled timer
    var released: seq<Spec.MediaRecorder>  // `release()` calls on native recorders
    var emitted: seq<Event>                // events sent to JavaScript

    /** Resolution of a recording path to the output file (`uriFromPath`). */
    const resolvePath: string -> string

    ghost function State(): Spec.Registry
      reads this
    {
      Spec.Registry(recorderPool, recorderAutoDestroy, meteringRecorderId, meteringRecorder,
                    meteringInterval, meteringFrameId, meteringUpdateTimer, released, emitted)
    }

    ghost predicate Valid()
      reads this
    {
      Spec.Inv(State())
    }

    constructor (resolvePath: string -> string)
      ensures Valid() && State() == Spec.Initial()
      ensures this.resolvePath == resolvePath
    {
      recorderPool, recorderAutoDestroy := map[], map[];
      meteringRecorderId, meteringRecorder := None, None;
      meteringInterval, meteringFrameId, meteringUpdateTimer := 0, 0, None;
      released, emitted := [], [];
      this.resolvePath := resolvePath;
    }

    /** `emitEvent`: sends `data` as event `name` on the channel of `id`. */
    method EmitEvent(id: Option<int>, name: string, data: EventData)
      modifies this
      ensures State() == Spec.Emit(old(State()), id, name, data)
    {
      emitted := emitted + [Event(ChannelName(id), name, data)];
    }

    method StopMeteringTimer()
      modifies this
      ensures State() == Spec.StopTimer(old(State()))
    {
      if meteringUpdateTimer.Some? {
        meteringUpdateTimer := None;
        meteringFrameId := 0;
      }
    }

    /** `destroy`: always resolves; a registered recorder is released and forgotten. */
    method Destroy(recorderId: int) returns (reply: Spec.Reply)
      requires Valid()
      modifies this
      ensures Valid()
      ensures State() == Spec.Destroy(old(State()), recorderId)
      ensures reply == Spec.Resolved
    {
      Spec.DestroyPreservesInv(State(), recorderId);
      if recorderId in recorderPool {
        var recorder := recorderPool[recorderId];
        released := released + [recorder];
        recorderPool := recorderPool - {recorderId};
        recorderAutoDestroy := recorderAutoDestroy - {recorderId};
        if meteringRecorderId == Some(recorderId) {
          meteringRecorderId := None;
          meteringRecorder := None;
        }
        EmitEvent(Some(recorderId), "info", DestroyedInfo);
      }
      reply := Spec.Resolved;
    }

    method Prepare(recorderId: int, path: Option<string>, options: RecorderOptions, nativeOk: bool)
      returns (reply: Spec.Reply)
      requires Valid()
      modifies this
      ensures Valid()
      ensures !Spec.ValidPath(path) ==> State() == old(State()) && reply == Spec.Rejected(Spec.InvalidPath)
      ensures Spec.ValidPath(path) ==>
        && recorderId in recorderPool && fresh(recorderPool[recorderId])
        && Spec.Outcome(State(), reply)
           == Spec.Prepare(old(State()), recorderId, path, options, recorderPool[recorderId], resolvePath, nativeOk)
    {
      if path.None? || path.value == "" {
        return Spec.Rejected(Spec.InvalidPath);
      }
      ghost var s0 := State();
      var _ := Destroy(recorderId);
      ghost var d := State();
      var outputPath := resolvePath(path.value);
      var recorder := new Spec.MediaRecorder();
      var config := ResolveConfig(path.value, options);
      var autoDestroy := true;
      if options.autoDestroy.Some? {
        autoDestroy := options.autoDestroy.value;
      }
      if options.meteringInterval.Some? && options.meteringInterval.value > 0 {
        meteringInterval := options.meteringInterval.value;
      } else {
        meteringInterval := 0;
      }
      recorderPool := recorderPool[recorderId := recorder];
      recorderAutoDestroy := recorderAutoDestroy[recorderId := autoDestroy];
      if nativeOk {
        reply := Spec.ResolvedPrepared(config, outputPath);
      } else {
        reply := Spec.Rejected(Spec.PrepareFail);
      }
      assert State() == d.(pool := d.pool[recorderId := recorder],
                           autoDestroy := d.autoDestroy[recorderId := autoDestroy],
                           interval := meteringInterval);
      Spec.PreparePreservesInv(s0, recorderId, path, options, recorder, resolvePath, nativeOk);
    }

    method Record(recorderId: int, nativeOk: bool) returns (reply: Spec.Reply)
      requires Valid()
      modifies this
      ensures Valid()
      ensures Spec.Outcome(State(), reply) == Spec.Record(old(State()), recorderId, nativeOk)
    {
      if recorderId !in recorderPool {
        return Spec.Rejected(Spec.NotFound);
      }
      if !nativeOk {
        return Spec.Rejected(Spec.StartFail);
      }
      if meteringInterval > 0 {
        meteringRecorder := Some(recorderPool[recorderId]);
        meteringRecorderId := Some(recorderId);
        meteringUpdateTimer := Some(meteringInterval);
      }
      reply := Spec.Resolved;
    }

    method Stop(recorderId: int, nativeOk: bool) returns (reply: Spec.Reply)
      requires Valid()
      modifies this
      ensures Valid()
      ensures Spec.Outcome(State(), reply) == Spec.Stop(old(State()), recorderId, nativeOk)
    {
      Spec.StopPreservesInv(State(), recorderId, nativeOk);
      if recorderId !in recorderPool {
        return Spec.Rejected(Spec.NotFound);
      }
      if !nativeOk {
        return Spec.Rejected(Spec.StopFail);
      }
      if meteringRecorderId == Some(recorderId) {
        StopMeteringTimer();
      }
      if recorderId !in recorderAutoDestroy {
        return Spec.Rejected(Spec.StopFail);
      }
      if recorderAutoDestroy[recorderId] {
        var _ := Destroy(recorderId);
      }
      reply := Spec.Resolved;
    }

    method Pause(recorderId: int, sdk: int, nativeOk: bool) returns (reply: Spec.Reply)
      requires Valid()
      modifies this
      ensures Valid()
      ensures Spec.Outcome(State(), reply) == Spec.Pause(old(State()), sdk, recorderId, nativeOk)
    {
      if sdk < Spec.MinPauseSdk {
        return Spec.Rejected(Spec.NotSupported);
      }
      reply := Pause24(recorderId, nativeOk);
    }

    method Pause24(recorderId: int, nativeOk: bool) returns (reply: Spec.Reply)
      requires Valid()
      modifies this
      ensures Valid()
      ensures Spec.Outcome(State(), reply) == Spec.Pause24(old(State()), recorderId, nativeOk)
    {
      if recorderId !in recorderPool {
        return Spec.Rejected(Spec.NotFound);
      }
      if !nativeOk {
        return Spec.Rejected(Spec.PauseFail);
      }
      if meteringRecorderId == Some(recorderId) {
        StopMeteringTimer();
      }
      reply := Spec.Resolved;
    }

    /** `getRecorderId`: scans the pool, in no particular order, for the entry holding `recorder`. */
    method GetRecorderId(recorder: Spec.MediaRecorder) returns (recorderId: Option<int>)
      ensures recorderId.Some? ==> recorderId.value in recorderPool && recorderPool[recorderId.value] == recorder
      ensures recorderId.None? ==> forall k :: k in recorderPool ==> recorderPool[k] != recorder
    {
      var unvisited := recorderPool.Keys;
      while unvisited != {}
        invariant unvisited <= recorderPool.Keys
        invariant forall k :: k in recorderPool && k !in unvisited ==> recorderPool[k] != recorder
        decreases unvisited
      {
        HasMember(unvisited);
        var k :| k in unvisited;
        if recorderPool[k] == recorder {
          return Some(k);
        }
        unvisited := unvisited - {k};
      }
      recorderId := None;
    }

    /** The native error listener. */
    method OnError(recorder: Spec.MediaRecorder, what: int, extra: int)
      requires Valid()
      modifies this
      ensures Valid()
      ensures State() == Spec.OnError(old(State()), recorder, what, extra)
    {
      var recorderId := GetRecorderId(recorder);
      Spec.FindRecorderIdUnique(recorderPool, recorder, recorderId);
      EmitEvent(recorderId, "error", NativeError(what, extra));
      if recorderId.Some? {
        var _ := Destroy(recorderId.value);
      }
    }

    /** The native info listener. */
    method OnInfo(recorder: Spec.MediaRecorder, what: int, extra: int)
      requires Valid()
      modifies this
      ensures Valid()
      ensures State() == Spec.OnInfo(old(State()), recorder, what, extra)
    {
      var recorderId := GetRecorderId(recorder);
      Spec.FindRecorderIdUnique(recorderPool, recorder, recorderId);
      EmitEvent(recorderId, "info", NativeInfo(what, extra));
    }

    /** One run of the metering timer task, which the timer runs every `meteringInterval` ms. */
    method MeteringTick(amplitude: int)
      requires Valid()
      modifies this
      ensures Valid()
      ensures State() == Spec.Tick(old(State()), amplitude)
    {
      if meteringRecorderId.Some? && meteringRecorder.Some? {
        var frame := meteringFrameId;
        meteringFrameId := Inc32(meteringFrameId);
        EmitEvent(meteringRecorderId, "meter", MeterSample(frame, amplitude));
      }
    }
  }
}
