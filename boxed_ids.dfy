/**
 * The module compares recorder ids with `==` on `Integer` objects (in
 * `destroy`, `stop` and `pause24`). Ids arrive from the bridge boxed one call
 * at a time, so two boxes of the same id are the same object only inside
 * the `Integer.valueOf` cache, -128 to 127. This module models `destroy` with
 * that comparison and shows what it breaks; the rest of the model uses value
 * equality (`RecorderSpec.IsMeteringTarget`).
 */
module BoxedIds {
  import opened Wrappers
  import opened RecorderEvents
  import opened RecorderSpec

  const IntegerCacheLow := -128
  const IntegerCacheHigh := 127

  /** `recorderId == meteringRecorderId` on two separately boxed ids. */
  predicate SameBoxAsWritten(id: int, target: Option<int>) {
    target.Some? && target.value == id && IntegerCacheLow <= id <= IntegerCacheHigh
  }

  /** `destroy` with the reference comparison of the source. */
  function DestroyAsWritten(s: Registry, id: int): (t: Registry)
    ensures t.pool == s.pool - {id}
    ensures id in s.pool && IntegerCacheLow <= id <= IntegerCacheHigh ==> t == Destroy(s, id)
  {
    if id in s.pool then
      var target := SameBoxAsWritten(id, s.meteringId);
      var forgotten := s.(pool := s.pool - {id},
                          autoDestroy := s.autoDestroy - {id},
                          meteringId := if target then None else s.meteringId,
                          meteringRecorder := if target then None else s.meteringRecorder,
                          released := s.released + [s.pool[id]]);
      Emit(forgotten, Some(id), "info", DestroyedInfo)
    else
      s
  }

  /**
   * Recorder 1000 is recording with metering; destroying it releases the
   * native recorder but leaves it the metering target while the timer is
   * still scheduled, so the next timer tick asks the released recorder for
   * its amplitude.
   */
  lemma DestroyAsWrittenKeepsReleasedTarget(h: MediaRecorder)
    ensures var s := Registry(map[1000 := h], map[1000 := true], Some(1000), Some(h), 100, 5, Some(100), [], []);
      var t := DestroyAsWritten(s, 1000);
      && Inv(s)
      && !Inv(t)
      && t.meteringRecorder == Some(h) && h in t.released
      && t.timer == Some(100)
  {
  }

  /**
   * With value equality, destroying a recorder ends its metering: it is no
   * longer the target, and no number of later ticks reports anything on its
   * channel.
   */
  lemma DestroyEndsMetering(s: Registry, id: int, amplitudes: seq<int>)
    requires Inv(s) && id in s.pool
    ensures var t := Destroy(s, id);
      && Inv(t)
      && t.meteringRecorder != Some(s.pool[id])
      && (forall i :: |t.events| <= i < |Ticks(t, amplitudes).events| ==>
            Ticks(t, amplitudes).events[i].channel != ChannelName(Some(id)))
  {
    DestroyPreservesInv(s, id);
    DestroyPresent(s, id);
    var t := Destroy(s, id);
    var u := Ticks(t, amplitudes);
    TicksOnTargetChannel(t, amplitudes);
    if t.meteringId.Some? {
      if t.meteringId == Some(id) {
        assert false;
      }
      assert t.pool[t.meteringId.value] in t.pool.Values;
      forall i | |t.events| <= i < |u.events|
        ensures u.events[i].channel != ChannelName(Some(id))
      {
        if u.events[i].channel == ChannelName(Some(id)) {
          ChannelNameInjective(t.meteringId, Some(id));
        }
      }
    }
  }
}
