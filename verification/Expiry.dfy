/** When a context counts as expired: by the data of its heartbeat entity, compared with a timestamp as strings. */
module Expiry {
  import opened Wrappers
  import opened Decimals
  import opened Timestamps
  import opened NameGraph
  import opened Iteration

  const HEARTBEAT_ENTRY_NAME := "gs_heartbeat"

  // ---------- the expiry test ----------

  predicate HasHeartbeat(objs: Objects, c: Id) {
    && HEARTBEAT_ENTRY_NAME in NamesOf(objs, c)
    && NamesOf(objs, c)[HEARTBEAT_ENTRY_NAME].tag == EntityBinding
    && IsReal(objs, NamesOf(objs, c)[HEARTBEAT_ENTRY_NAME].target)
  }

  function Heartbeat(objs: Objects, c: Id): Option<string>
    requires HasHeartbeat(objs, c)
  {
    objs[NamesOf(objs, c)[HEARTBEAT_ENTRY_NAME].target].charData
  }

  predicate Expired(objs: Objects, timeout: string, c: Id) {
    && HasHeartbeat(objs, c)
    && var data := Heartbeat(objs, c);
    && data.Some? && StrNCmp(timeout, data.value, |data.value|) >= 0
  }

  /** Which entity decides, and how: the real one bound as "gs_heartbeat", by the data it holds. */
  lemma ExpiredIffOldBeat(objs: Objects, timeout: string, c: Id)
    ensures Expired(objs, timeout, c) <==>
      exists e, beat ::
        && "gs_heartbeat" in NamesOf(objs, c) && NamesOf(objs, c)["gs_heartbeat"] == Binding(EntityBinding, e)
        && IsReal(objs, e) && objs[e].charData == Some(beat) && StrNCmp(timeout, beat, |beat|) >= 0
  {
    if Expired(objs, timeout, c) {
      var e := NamesOf(objs, c)["gs_heartbeat"].target;
      assert objs[e].charData == Some(objs[e].charData.value);
    }
  }

  /** What a null pointer is followed for: the same entity without data. */
  lemma HeartbeatIsNamed(objs: Objects, c: Id, e: Id)
    requires "gs_heartbeat" in NamesOf(objs, c) && NamesOf(objs, c)["gs_heartbeat"] == Binding(EntityBinding, e)
    requires IsReal(objs, e)
    ensures HasHeartbeat(objs, c) && Heartbeat(objs, c) == objs[e].charData
  {
  }

  /** The search through a context's bindings, in any order, for a real heartbeat entity. */
  method IsExpired(objs: Objects, timeout: string, ctx: Id) returns (r: bool)
    requires forall n :: n in NamesOf(objs, ctx) ==> NamesOf(objs, ctx)[n].target in objs
    requires HasHeartbeat(objs, ctx) ==> Heartbeat(objs, ctx).Some?
    ensures r == Expired(objs, timeout, ctx)
  {
    var names := NamesOf(objs, ctx);
    var order := HashOrder(names);
    for i := 0 to |order|
      invariant HasHeartbeat(objs, ctx) ==> HEARTBEAT_ENTRY_NAME in order[i..]
    {
      var bp := names[order[i]];
      if objs[bp.target].placeholder { continue; }
      if bp.tag == EntityBinding && order[i] == HEARTBEAT_ENTRY_NAME {
        var data := objs[bp.target].charData.value;
        return StrNCmp(timeout, data, |data|) >= 0;
      }
    }
    r := false;
  }

  /**
   A context expires by the age of its heartbeat exactly when its timestamp and the timeout's compare as
   strings as they do as numbers; it always does when the timeout lies before the epoch.
   */
  lemma ExpiresWithAgeIff(objs: Objects, c: Id, now: int, timeout: int, beat: string)
    requires HasHeartbeat(objs, c) && Heartbeat(objs, c) == Some(beat) && Canonical(beat)
    ensures (Expired(objs, TimeoutTimestamp(now, timeout), c) <==> Value(beat) + timeout <= now)
       <==> now < timeout || SharedDigitsDecide(TimeoutTimestamp(now, timeout), beat)
  {
    if now >= timeout {
      DecimalIsCanonical(now - timeout);
      DecimalIsValue(now - timeout);
      ComparesAsNumbersIff(TimeoutTimestamp(now, timeout), beat);
    } else {
      ValueBound(beat);
      assert CharAt(TimeoutTimestamp(now, timeout)) == '-' as int;
    }
  }
}
