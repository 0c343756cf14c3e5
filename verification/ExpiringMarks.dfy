// internal/cache/negative.go and internal/service/callerhealth.go: bounded sets of
// marks that lapse after a fixed time. The two files hold the same structure; the
// caller tracker adds removal and ignores the empty fingerprint.

module ExpiringMarks {
  import opened Domain

  // What has been asked of the tracker.
  datatype Event = Marked(key: string, at: int) | Removed(key: string)

  // The latest event about the key is a mark made at this instant.
  ghost predicate MarkedAt(h: seq<Event>, key: string, at: int) {
    exists p :: LatestMark(h, key, at, p)
  }

  ghost predicate LatestMark(h: seq<Event>, key: string, at: int, p: int) {
    0 <= p < |h| && h[p] == Marked(key, at) && forall q :: p < q < |h| ==> h[q].key != key
  }

  ghost predicate Summarizes(marks: map<string, int>, h: seq<Event>) {
    forall k, t :: (k in marks && marks[k] == t) <==> MarkedAt(h, k, t)
  }

  function Update(marks: map<string, int>, e: Event): map<string, int> {
    match e
    case Marked(k, t) => marks[k := t]
    case Removed(k) => marks - {k}
  }

  lemma LatestMarkStep(h: seq<Event>, e: Event, k: string, t: int)
    ensures MarkedAt(h + [e], k, t) <==> if e.key == k then e == Marked(k, t) else MarkedAt(h, k, t)
  {
    var h' := h + [e];
    if e == Marked(k, t) {
      assert LatestMark(h', k, t, |h|);
    } else if e.key != k && MarkedAt(h, k, t) {
      var p :| LatestMark(h, k, t, p);
      assert LatestMark(h', k, t, p);
    } else if MarkedAt(h', k, t) {
      var p :| LatestMark(h', k, t, p);
      assert h'[|h|] == e && p < |h|;
      assert forall q :: p < q < |h| ==> h[q] == h'[q];
      assert LatestMark(h, k, t, p);
    }
  }

  lemma SummarizesStep(marks: map<string, int>, h: seq<Event>, e: Event)
    requires Summarizes(marks, h)
    ensures Summarizes(Update(marks, e), h + [e])
  {
    forall k, t ensures (k in Update(marks, e) && Update(marks, e)[k] == t) <==> MarkedAt(h + [e], k, t) {
      LatestMarkStep(h, e, k, t);
      assert (k in marks && marks[k] == t) <==> MarkedAt(h, k, t);
    }
  }

  // The entries are marks that stand, and every mark that stands, has not lapsed
  // and was not given up for want of room is an entry.
  ghost predicate Holds(entries: map<string, int>, marks: map<string, int>, dropped: set<string>, ttl: int,
                        clock: int)
  {
    && (forall k :: k in entries ==> k in marks && entries[k] == marks[k] + ttl)
    && (forall k :: k in marks && k !in dropped && clock <= marks[k] + ttl ==> k in entries)
    && (forall k :: k in dropped ==> k !in entries)
  }

  ghost function Unlapsed(entries: map<string, int>, now: int): map<string, int> {
    map k | k in entries && now <= entries[k] :: entries[k]
  }

  lemma ClockHolds(m: map<string, int>, marks: map<string, int>, dropped: set<string>, ttl: int, clock: int, now: int)
    requires Holds(m, marks, dropped, ttl, clock) && clock <= now
    ensures Holds(m, marks, dropped, ttl, now)
  {
  }

  lemma EvictionHolds(m: map<string, int>, m': map<string, int>, marks: map<string, int>, dropped: set<string>,
                      victims: set<string>, ttl: int, clock: int, now: int)
    requires Holds(m, marks, dropped, ttl, clock) && clock <= now
    requires m' == Unlapsed(m, now) - victims
    ensures Holds(m', marks, dropped + victims, ttl, now)
  {
  }

  lemma MarkHolds(m: map<string, int>, marks: map<string, int>, dropped: set<string>, ttl: int, clock: int,
                  key: string, now: int)
    requires Holds(m, marks, dropped, ttl, clock) && clock <= now
    ensures Holds(m[key := now + ttl], marks[key := now], dropped - {key}, ttl, now)
  {
  }

  lemma InsertSize(m: map<string, int>, key: string, at: int, max: int)
    requires |m| <= max && (key in m || |m| < max)
    ensures |m[key := at]| <= max
  {
    assert (m[key := at]).Keys == m.Keys + {key};
  }

  // Removing a lapsed mark takes nothing from what has not lapsed.
  lemma LapsedDoesNotCount(m: map<string, int>, key: string, now: int)
    requires key in m ==> now > m[key]
    ensures Unlapsed(m - {key}, now) == Unlapsed(m, now)
  {
  }

  class Tracker {
    var entries: map<string, int>
    const ttl: int
    const max: int
    ghost var history: seq<Event>
    ghost var marks: map<string, int>    // the marks that stand, by history
    ghost var dropped: set<string>       // standing marks given up for want of room
    ghost var clock: int

    ghost predicate Valid()
      reads this
    {
      && max >= 1 && |entries| <= max
      && Summarizes(marks, history)
      && Holds(entries, marks, dropped, ttl, clock)
    }

    constructor (ttl: int, max: int)
      requires max >= 1
      ensures Valid() && history == [] && dropped == {} && entries == map[] && clock == 0
      ensures this.ttl == ttl && this.max == max
    {
      this.ttl, this.max := ttl, max;
      entries := map[];
      history, marks, dropped, clock := [], map[], {}, 0;
    }

    // The answer is yes exactly when the key's mark stands, has not lapsed and was
    // not given up for want of room.
    method Blocked(key: string, now: int) returns (yes: bool)
      requires Valid() && clock <= now
      modifies this
      ensures Valid() && history == old(history) && dropped == old(dropped) && clock == now
      ensures yes <==> key !in dropped && exists t :: MarkedAt(history, key, t) && now <= t + ttl
      ensures entries == if key in old(entries) && !yes then old(entries) - {key} else old(entries)
      ensures yes ==> key in entries && now <= entries[key]
      ensures !yes && key in old(entries) ==> now > old(entries)[key]
    {
      clock := now;
      assert key in marks ==> MarkedAt(history, key, marks[key]);
      if key !in entries {
        return false;
      }
      if now > entries[key] {
        SubsetSize((entries - {key}).Keys, entries.Keys);
        entries := entries - {key};
        return false;
      }
      return true;
    }

    // A mark that has not lapsed is given up only when the key is new, the tracker
    // is full, and the lapsed marks did not free a place; then exactly one is.
    method Remember(key: string, evictAt: int, now: int) returns (ghost victims: set<string>)
      requires Valid() && clock <= evictAt <= now
      modifies this
      ensures Valid() && history == old(history) + [Marked(key, now)] && clock == now
      ensures key in entries && entries[key] == now + ttl
      ensures forall k :: k in entries && k != key ==> k in old(entries) && entries[k] == old(entries)[k]
      ensures dropped == old(dropped) + victims - {key}
      ensures victims <= Unlapsed(old(entries), evictAt).Keys
      ensures |victims| == if key !in old(entries) && |Unlapsed(old(entries), evictAt)| >= max then 1 else 0
    {
      hide Holds, Summarizes, MarkedAt, Unlapsed;
      victims := MakeRoom(key, evictAt);
      Insert(key, now, evictAt, victims);
    }

    method Insert(key: string, now: int, ghost since: int, ghost victims: set<string>)
      requires since <= now && |entries| <= max && (key in entries || |entries| < max)
      requires Summarizes(marks, history) && Holds(entries, marks, dropped + victims, ttl, since)
      modifies this
      ensures Valid() && clock == now
      ensures entries == old(entries)[key := now + ttl]
      ensures history == old(history) + [Marked(key, now)] && dropped == old(dropped) + victims - {key}
    {
      hide Holds, Summarizes;
      MarkHolds(entries, marks, dropped + victims, ttl, since, key, now);
      SummarizesStep(marks, history, Marked(key, now));
      InsertSize(entries, key, now + ttl, max);
      entries := entries[key := now + ttl];
      history, marks := history + [Marked(key, now)], marks[key := now];
      dropped, clock := dropped + victims - {key}, now;
    }

    method MakeRoom(key: string, at: int) returns (ghost victims: set<string>)
      requires Valid() && clock <= at
      modifies this`entries
      ensures Holds(entries, marks, dropped + victims, ttl, at)
      ensures forall k :: k in entries ==> k in old(entries) && entries[k] == old(entries)[k]
      ensures |entries| <= max && (key in entries || |entries| < max)
      ensures victims <= Unlapsed(old(entries), at).Keys
      ensures |victims| == if key !in old(entries) && |Unlapsed(old(entries), at)| >= max then 1 else 0
    {
      hide Holds, Summarizes;
      ghost var m := entries;
      SubsetSize(Unlapsed(m, at).Keys, m.Keys);
      victims := {};
      if key !in entries && |entries| >= max {
        victims := EvictLocked(at);
        EvictionHolds(m, entries, marks, dropped, victims, ttl, clock, at);
      } else {
        ClockHolds(m, marks, dropped, ttl, clock, at);
        assert dropped + victims == dropped;
      }
    }

    method Remove(key: string)
      requires Valid()
      modifies this
      ensures Valid() && history == old(history) + [Removed(key)] && clock == old(clock)
      ensures entries == old(entries) - {key} && dropped == old(dropped) - {key}
    {
      SubsetSize((entries - {key}).Keys, entries.Keys);
      entries := entries - {key};
      SummarizesStep(marks, history, Removed(key));
      history, marks, dropped := history + [Removed(key)], marks - {key}, dropped - {key};
    }

    // Drops lapsed marks, then one arbitrary mark if the tracker is still full.
    method EvictLocked(now: int) returns (ghost victims: set<string>)
      requires max >= 1 && |entries| <= max
      modifies this`entries
      ensures victims <= Unlapsed(old(entries), now).Keys
      ensures |victims| == if |Unlapsed(old(entries), now)| >= max then 1 else 0
      ensures entries == Unlapsed(old(entries), now) - victims
      ensures |entries| < max
    {
      ghost var m := entries;
      Sweep(now);
      victims := {};
      SubsetSize(entries.Keys, m.Keys);
      if |entries| >= max {
        assert entries.Keys != {};
        var victim :| victim in entries.Keys;
        assert (entries - {victim}).Keys == entries.Keys - {victim};
        entries := entries - {victim};
        victims := {victim};
      }
    }

    method Sweep(now: int)
      modifies this`entries
      ensures entries == Unlapsed(old(entries), now)
    {
      ghost var m := entries;
      var todo := entries.Keys;
      while todo != {}
        invariant todo <= m.Keys
        invariant forall k :: k in entries <==> k in m && (k in todo || now <= m[k])
        invariant forall k :: k in entries ==> entries[k] == m[k]
        decreases |todo|
      {
        var k :| k in todo;
        todo := todo - {k};
        if now > entries[k] {
          entries := entries - {k};
        }
      }
    }
  }

  const CALLER_HEALTH_MAX_ENTRIES := 4096
  const DEFAULT_CALLER_TTL := 300_000_000_000

  // The caller-session tracker: the empty fingerprint is never marked.
  class CallerHealth {
    const tracker: Tracker

    constructor (ttl: int)
      ensures fresh(tracker) && tracker.Valid() && tracker.max == 4096
      ensures tracker.ttl == (if ttl <= 0 then 300_000_000_000 else ttl) && tracker.history == []
      ensures tracker.entries == map[] && tracker.dropped == {} && tracker.clock == 0
    {
      tracker := new Tracker(if ttl <= 0 then DEFAULT_CALLER_TTL else ttl, CALLER_HEALTH_MAX_ENTRIES);
    }

    method Unhealthy(fp: string, now: int) returns (yes: bool)
      requires tracker.Valid() && tracker.clock <= now
      modifies tracker
      ensures tracker.Valid() && tracker.history == old(tracker.history) && tracker.dropped == old(tracker.dropped)
      ensures old(tracker.clock) <= tracker.clock <= now
      ensures tracker.entries == if fp in old(tracker.entries) && fp != "" && !yes then old(tracker.entries) - {fp}
                                 else old(tracker.entries)
      ensures !yes && fp != "" && fp in old(tracker.entries) ==> now > old(tracker.entries)[fp]
      ensures yes ==> fp in tracker.entries && now <= tracker.entries[fp]
      ensures yes <==> fp != "" && fp !in tracker.dropped
                       && exists t :: MarkedAt(tracker.history, fp, t) && now <= t + tracker.ttl
    {
      if fp == "" {
        return false;
      }
      yes := tracker.Blocked(fp, now);
    }

    // Nobody else's rejection is forgotten unless the tracker is full of rejections
    // that stand; then exactly one is.
    method MarkUnhealthy(fp: string, evictAt: int, now: int) returns (ghost victims: set<string>)
      requires tracker.Valid() && tracker.clock <= evictAt <= now
      modifies tracker
      ensures tracker.Valid() && tracker.clock <= now
      ensures fp == "" ==>
                && victims == {} && tracker.history == old(tracker.history)
                && tracker.dropped == old(tracker.dropped) && tracker.entries == old(tracker.entries)
      ensures fp != "" ==>
                && tracker.history == old(tracker.history) + [Marked(fp, now)]
                && tracker.dropped == old(tracker.dropped) + victims - {fp}
                && fp in tracker.entries && tracker.entries[fp] == now + tracker.ttl
                && victims <= Unlapsed(old(tracker.entries), evictAt).Keys
                && |victims| == (if fp !in old(tracker.entries)
                                    && |Unlapsed(old(tracker.entries), evictAt)| >= tracker.max then 1 else 0)
      ensures forall k :: k in tracker.entries && k != fp ==>
                k in old(tracker.entries) && tracker.entries[k] == old(tracker.entries)[k]
    {
      victims := {};
      if fp == "" {
        return;
      }
      victims := tracker.Remember(fp, evictAt, now);
    }

    method Clear(fp: string)
      requires tracker.Valid()
      modifies tracker
      ensures tracker.Valid() && tracker.clock == old(tracker.clock)
      ensures tracker.history == if fp == "" then old(tracker.history) else old(tracker.history) + [Removed(fp)]
      ensures tracker.entries == if fp == "" then old(tracker.entries) else old(tracker.entries) - {fp}
      ensures tracker.dropped == if fp == "" then old(tracker.dropped) else old(tracker.dropped) - {fp}
    {
      if fp == "" {
        return;
      }
      tracker.Remove(fp);
    }
  }
}
