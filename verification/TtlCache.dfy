// internal/cache/ttl.go: the size-bounded cache with one constant TTL.
//
// Specification: the cache is a window over the recency list. Of all the keys
// ever Set, take the maxEntries most recently Set ones; the cache answers exactly
// the unexpired keys among them, each with its last Set value.

module TtlWindow {
  import opened Domain

  datatype Entry<+V> = Entry(result: V, expiresAt: int)

  // One call of Set.
  datatype Stamp<+V> = Stamp(key: string, result: V, at: int)

  // ---------------------------------------------------------------------------
  // The eviction scan. Go visits a map in an arbitrary order; the running minimum
  // uses the empty key as "none yet".

  predicate Expired<V>(m: map<string, Entry<V>>, k: string, now: int)
    requires k in m
  {
    now > m[k].expiresAt
  }

  function Live<V>(m: map<string, Entry<V>>, now: int): map<string, Entry<V>> {
    map k | k in m && !Expired(m, k, now) :: m[k]
  }

  function Scan<V>(m: map<string, Entry<V>>, now: int, order: seq<string>): (soonest: string)
    requires forall k :: k in order ==> k in m
    ensures soonest != "" ==> soonest in order && !Expired(m, soonest, now)
  {
    if order == [] then ""
    else
      var before, k := Scan(m, now, order[..|order| - 1]), order[|order| - 1];
      if Expired(m, k, now) then before
      else if before == "" || m[k].expiresAt < m[before].expiresAt then k
      else before
  }

  lemma ScanStep<V>(m: map<string, Entry<V>>, now: int, order: seq<string>, k: string)
    requires k in m && forall o :: o in order ==> o in m
    ensures var before := Scan(m, now, order);
            Scan(m, now, order + [k]) == if Expired(m, k, now) then before
              else if before == "" || m[k].expiresAt < m[before].expiresAt then k else before
  {
    assert (order + [k])[..|order|] == order;
  }

  function Evicted<V>(m: map<string, Entry<V>>, now: int, max: int, order: seq<string>): map<string, Entry<V>>
    requires forall k :: k in order ==> k in m
  {
    var live := Live(m, now);
    var soonest := Scan(m, now, order);
    if |live| >= max && soonest != "" then live - {soonest} else live
  }

  ghost predicate Enumerates(order: seq<string>, keys: set<string>) {
    && (forall k :: k in order <==> k in keys)
    && (forall i, j :: 0 <= i < j < |order| ==> order[i] != order[j])
  }

  lemma EnumerateStep(order: seq<string>, keys: set<string>, todo: set<string>, k: string)
    requires k in todo && todo <= keys && Enumerates(order, keys - todo)
    ensures Enumerates(order + [k], keys - (todo - {k}))
  {
    var order' := order + [k];
    forall o ensures o in order' <==> o in keys - (todo - {k}) {
      if o in order { var i :| 0 <= i < |order| && order[i] == o; assert order'[i] == o; }
      if o == k { assert order'[|order|] == o; }
    }
  }

  // k expires no later than any live key of the order.
  ghost predicate Soonest<V>(m: map<string, Entry<V>>, now: int, order: seq<string>, k: string)
    requires forall k :: k in order ==> k in m
  {
    && k in order && !Expired(m, k, now)
    && forall o :: o in order && !Expired(m, o, now) ==> m[k].expiresAt <= m[o].expiresAt
  }

  // Without the empty key the scan finds a soonest-to-expire live key whenever
  // there is a live key at all.
  lemma {:induction false} ScanFindsSoonest<V>(m: map<string, Entry<V>>, now: int, order: seq<string>)
    requires forall k :: k in order ==> k in m
    requires "" !in order
    ensures Scan(m, now, order) == "" <==> forall k :: k in order ==> Expired(m, k, now)
    ensures Scan(m, now, order) != "" ==> Soonest(m, now, order, Scan(m, now, order))
  {
    if order != [] {
      var init, last := order[..|order| - 1], order[|order| - 1];
      ScanFindsSoonest(m, now, init);
      assert forall k :: k in order <==> k in init || k == last;
    }
  }

  // A live empty key that is strictly the soonest to expire: the one situation
  // in which the scan can come back empty-handed from a cache with live entries.
  ghost predicate EmptyKeySoonest<V>(m: map<string, Entry<V>>, now: int) {
    && "" in m && !Expired(m, "", now)
    && forall k :: k in m && k != "" && !Expired(m, k, now) ==> m[""].expiresAt < m[k].expiresAt
  }

  // What the scan comes back with after any prefix of the order, if the empty
  // key is not the last one it chose.
  lemma {:induction false} ScanWithEmptyKey<V>(m: map<string, Entry<V>>, now: int, order: seq<string>)
    requires forall k :: k in order ==> k in m
    requires forall i, j :: 0 <= i < j < |order| ==> order[i] != order[j]
    requires order != [] && Scan(m, now, order) == ""
    requires exists k :: k in order && !Expired(m, k, now)
    ensures "" in order && !Expired(m, "", now)
    ensures forall k :: k in order && k != "" && !Expired(m, k, now) ==> m[""].expiresAt < m[k].expiresAt
  {
    var init, last := order[..|order| - 1], order[|order| - 1];
    assert forall k :: k in order <==> k in init || k == last;
    if Expired(m, last, now) {
      ScanWithEmptyKey(m, now, init);
    } else {
      assert last == "";
      assert "" !in init;
      ScanFindsSoonest(m, now, init);
    }
  }

  lemma OrderWithLast(keys: set<string>, last: string) returns (order: seq<string>)
    requires last in keys
    ensures Enumerates(order, keys) && order != [] && order[|order| - 1] == last
  {
    var rest := keys - {last};
    var init := AnyOrder(rest);
    order := init + [last];
  }

  lemma AnyOrder(keys: set<string>) returns (order: seq<string>)
    ensures Enumerates(order, keys)
  {
    order := [];
    var rest := keys;
    while rest != {}
      invariant rest <= keys
      invariant Enumerates(order, keys - rest)
    {
      var k :| k in rest;
      rest := rest - {k};
      order := order + [k];
    }
    assert keys - rest == keys;
  }

  // Eviction makes room in every map order, if and only if the cache is not both
  // full of live entries and soonest to lose the empty key.
  lemma {:induction false} RoomIff<V>(m: map<string, Entry<V>>, now: int, max: int)
    requires 1 <= max && |m| <= max
    ensures (forall order :: Enumerates(order, m.Keys) ==> |Evicted(m, now, max, order)| < max)
       <==> !(|Live(m, now)| == max && EmptyKeySoonest(m, now))
  {
    LiveIsSmaller(m, now);
    if |Live(m, now)| == max && EmptyKeySoonest(m, now) {
      var order := OrderWithLast(m.Keys, "");
      var init := order[..|order| - 1];
      assert "" !in init;
      ScanFindsSoonest(m, now, init);
      assert Scan(m, now, order) == "";
      assert Evicted(m, now, max, order) == Live(m, now);
    } else {
      forall order | Enumerates(order, m.Keys) ensures |Evicted(m, now, max, order)| < max {
        if |Live(m, now)| >= max {
          SomeKeyLive(m, now, max);
          if Scan(m, now, order) == "" {
            ScanWithEmptyKey(m, now, order);
          } else {
            var live := Live(m, now);
            assert (live - {Scan(m, now, order)}).Keys == live.Keys - {Scan(m, now, order)};
          }
        }
      }
    }
  }

  lemma LiveIsSmaller<V>(m: map<string, Entry<V>>, now: int)
    ensures |Live(m, now)| <= |m|
  {
    SubsetSize(Live(m, now).Keys, m.Keys);
  }

  lemma SomeKeyLive<V>(m: map<string, Entry<V>>, now: int, max: int)
    requires 1 <= max <= |Live(m, now)|
    ensures exists k :: k in m && !Expired(m, k, now)
  {
    var live := Live(m, now);
    assert live.Keys != {};
    var k :| k in live.Keys;
    assert k in m && !Expired(m, k, now);
  }

  lemma SameSizeSubset<T>(a: set<T>, b: set<T>)
    requires a <= b && |a| >= |b|
    ensures a == b
  {
    if x :| x in b && x !in a {
      SubsetSize(a, b - {x});
    }
  }

  // ---------------------------------------------------------------------------
  // The recency list

  ghost function IndexOf<V>(l: seq<Stamp<V>>, key: string): (i: Option<nat>)
    ensures i.Some? ==> i.value < |l| && l[i.value].key == key
    ensures i.None? ==> forall j :: 0 <= j < |l| ==> l[j].key != key
  {
    if j: nat :| j < |l| && l[j].key == key then Some(j) else None
  }

  ghost function Without<V>(l: seq<Stamp<V>>, key: string): seq<Stamp<V>> {
    var j := IndexOf(l, key);
    if j.None? then l else l[..j.value] + l[j.value + 1..]
  }

  ghost function Touch<V>(l: seq<Stamp<V>>, e: Stamp<V>): seq<Stamp<V>> {
    Without(l, e.key) + [e]
  }

  ghost predicate Increasing<V>(l: seq<Stamp<V>>) {
    forall i, j :: 0 <= i < j < |l| ==> l[i].at <= l[j].at
  }

  ghost predicate Distinct<V>(l: seq<Stamp<V>>) {
    forall i, j :: 0 <= i < j < |l| ==> l[i].key != l[j].key
  }

  ghost predicate Later<V>(l: seq<Stamp<V>>, at: int) {
    forall i :: 0 <= i < |l| ==> l[i].at <= at
  }

  // Where position i of the touched list was before the touch.
  ghost function Before<V>(l: seq<Stamp<V>>, key: string, i: nat): nat {
    var j := IndexOf(l, key);
    if j.Some? && j.value <= i then i + 1 else i
  }

  lemma TouchPositions<V>(l: seq<Stamp<V>>, e: Stamp<V>)
    ensures var l' := Touch(l, e);
            && |l'| == (if IndexOf(l, e.key).Some? then |l| else |l| + 1)
            && l'[|l'| - 1] == e
            && (forall i :: 0 <= i < |l'| - 1 ==> Before(l, e.key, i) < |l| && l'[i] == l[Before(l, e.key, i)])
  {
    var w := Without(l, e.key);
    assert forall i :: 0 <= i < |w| ==> Touch(l, e)[i] == w[i] && w[i] == l[Before(l, e.key, i)];
  }

  lemma TouchShape<V>(l: seq<Stamp<V>>, e: Stamp<V>)
    requires Distinct(l) && Increasing(l) && Later(l, e.at)
    ensures var l' := Touch(l, e);
            && Distinct(l') && Increasing(l')
            && |l'| == (if IndexOf(l, e.key).Some? then |l| else |l| + 1)
            && (forall i :: 0 <= i < |l'| - 1 ==> l'[i] == l[Before(l, e.key, i)] && l'[i].key != e.key)
  {
    hide Touch;
    TouchPositions(l, e);
    var l', j := Touch(l, e), IndexOf(l, e.key);
    forall i | 0 <= i < |l'| - 1 ensures l'[i].key != e.key && l'[i].at <= e.at {
      assert l'[i] == l[Before(l, e.key, i)];
    }
  }

  lemma TouchMembers<V>(l: seq<Stamp<V>>, e: Stamp<V>, x: Stamp<V>)
    requires Distinct(l)
    ensures x in Touch(l, e) <==> x == e || (x in l && x.key != e.key)
  {
    hide Touch;
    TouchPositions(l, e);
    var j, l' := IndexOf(l, e.key), Touch(l, e);
    if x == e {
      assert l'[|l'| - 1] == x;
    } else if x in l && x.key != e.key {
      var i :| 0 <= i < |l| && l[i] == x;
      var p := if j.Some? && j.value < i then i - 1 else i;
      assert Before(l, e.key, p) == i && l'[p] == x;
    } else {
      forall i | 0 <= i < |l'| ensures l'[i] != x {
        if i < |l'| - 1 {
          assert l'[i] == l[Before(l, e.key, i)];
        }
      }
    }
  }

  ghost predicate IsLastSet<V>(sets: seq<Stamp<V>>, x: Stamp<V>) {
    exists p :: LastSetAt(sets, x, p)
  }

  ghost predicate LastSetAt<V>(sets: seq<Stamp<V>>, x: Stamp<V>, p: int) {
    0 <= p < |sets| && sets[p] == x && forall q :: p < q < |sets| ==> sets[q].key != x.key
  }

  lemma LastSetStep<V>(sets: seq<Stamp<V>>, e: Stamp<V>, x: Stamp<V>)
    ensures IsLastSet(sets + [e], x) <==> x == e || (IsLastSet(sets, x) && x.key != e.key)
  {
    var all := sets + [e];
    if x == e {
      assert LastSetAt(all, x, |sets|);
    } else if IsLastSet(sets, x) && x.key != e.key {
      var p :| LastSetAt(sets, x, p);
      assert LastSetAt(all, x, p);
    } else if IsLastSet(all, x) {
      var p :| LastSetAt(all, x, p);
      assert p < |sets| && all[|sets|] == e;
      assert forall q :: p < q < |sets| ==> sets[q] == all[q];
      assert LastSetAt(sets, x, p);
    }
  }

  // A recency list of a history of Sets: the last Set of every key, in order of
  // time. Sets at one instant may be listed in any order.
  ghost predicate IsRecency<V>(l: seq<Stamp<V>>, sets: seq<Stamp<V>>) {
    && Increasing(l) && Distinct(l)
    && (forall x :: x in l ==> IsLastSet(sets, x))
    && (forall x :: x in sets && IsLastSet(sets, x) ==> x in l)
  }

  lemma TouchIsRecency<V>(l: seq<Stamp<V>>, sets: seq<Stamp<V>>, e: Stamp<V>)
    requires IsRecency(l, sets) && Later(l, e.at)
    ensures IsRecency(Touch(l, e), sets + [e])
  {
    TouchShape(l, e);
    forall x | x in Touch(l, e) ensures IsLastSet(sets + [e], x) {
      LastSetStep(sets, e, x);
      TouchMembers(l, e, x);
    }
    forall x | x in sets + [e] && IsLastSet(sets + [e], x) ensures x in Touch(l, e) {
      LastSetStep(sets, e, x);
      TouchMembers(l, e, x);
    }
  }

  lemma HasMember<T>(s: seq<T>)
    requires s != []
    ensures exists x :: x in s
  {
    assert s[0] in s;
  }

  ghost predicate NoTies<V>(sets: seq<Stamp<V>>) {
    forall i, j :: 0 <= i < j < |sets| ==> sets[i].at != sets[j].at
  }

  ghost predicate Strict<V>(l: seq<Stamp<V>>) {
    forall i, j :: 0 <= i < j < |l| ==> l[i].at < l[j].at
  }

  lemma RecencyIsStrict<V>(l: seq<Stamp<V>>, sets: seq<Stamp<V>>)
    requires IsRecency(l, sets) && NoTies(sets)
    ensures Strict(l)
  {
    forall i, j | 0 <= i < j < |l| ensures l[i].at < l[j].at {
      assert l[i] in l && l[j] in l;
      var p, q :| LastSetAt(sets, l[i], p) && LastSetAt(sets, l[j], q);
      assert p != q;
    }
  }

  // A history in which no two Sets share an instant has one recency list.
  lemma {:induction false} RecencyIsUnique<V>(a: seq<Stamp<V>>, b: seq<Stamp<V>>, sets: seq<Stamp<V>>)
    requires IsRecency(a, sets) && IsRecency(b, sets) && NoTies(sets)
    ensures a == b
  {
    RecencyIsStrict(a, sets);
    RecencyIsStrict(b, sets);
    forall x | x in a ensures x in b { LastIsMember(sets, x); }
    forall x | x in b ensures x in a { LastIsMember(sets, x); }
    SameMembersSameList(a, b);
  }

  lemma LastIsMember<V>(sets: seq<Stamp<V>>, x: Stamp<V>)
    requires IsLastSet(sets, x)
    ensures x in sets
  {
  }

  lemma {:induction false} SameMembersSameList<V>(a: seq<Stamp<V>>, b: seq<Stamp<V>>)
    requires Strict(a) && Strict(b) && (forall x :: x in a ==> x in b) && (forall x :: x in b ==> x in a)
    ensures a == b
  {
    if a == [] {
      if b != [] {
        HasMember(b);
        assert false;
      }
    } else {
      assert a[0] in b;
      var x, y := a[|a| - 1], b[|b| - 1];
      assert x in b && y in a;
      assert x.at <= y.at && y.at <= x.at;
      var i :| 0 <= i < |b| && b[i] == x;
      assert i == |b| - 1;
      var a', b' := a[..|a| - 1], b[..|b| - 1];
      forall z | z in a' ensures z in b' { assert z in a && z in b && z.at < x.at; }
      forall z | z in b' ensures z in a' { assert z in b && z in a && z.at < x.at; }
      SameMembersSameList(a', b');
    }
  }

  function WindowStart<V>(l: seq<Stamp<V>>, max: int): nat
    requires max >= 1
  {
    if |l| >= max then |l| - max else 0
  }

  // What the window answers for a key at an instant.
  ghost function WindowGet<V>(l: seq<Stamp<V>>, ttl: int, max: int, key: string, now: int): Option<V>
    requires max >= 1
  {
    var i := IndexOf(l, key);
    if i.Some? && i.value >= WindowStart(l, max) && now <= l[i.value].at + ttl then Some(l[i.value].result) else None
  }

  // Whatever the window answers was once Set under that very key.
  lemma AnswerWasSet<V>(l: seq<Stamp<V>>, sets: seq<Stamp<V>>, ttl: int, max: int, key: string, now: int)
    requires max >= 1 && IsRecency(l, sets) && WindowGet(l, ttl, max, key, now).Some?
    ensures exists s :: s in sets && s.key == key && s.result == WindowGet(l, ttl, max, key, now).value
  {
    var s := l[IndexOf(l, key).value];
    assert s in l && IsLastSet(sets, s);
  }

  // ---------------------------------------------------------------------------
  // The map follows the window

  ghost predicate Ordered<V>(l: seq<Stamp<V>>, clock: int) {
    && Increasing(l) && Distinct(l)
    && (forall i :: 0 <= i < |l| ==> l[i].key != "" && l[i].at <= clock)
  }

  // Every entry holds the last Set of its key.
  ghost predicate Faithful<V>(m: map<string, Entry<V>>, l: seq<Stamp<V>>, ttl: int) {
    forall k :: k in m ==>
      var i := IndexOf(l, k);
      i.Some? && m[k] == Entry(l[i.value].result, l[i.value].at + ttl)
  }

  // From position `start` on, everything unexpired is in the map.
  ghost predicate Complete<V>(m: map<string, Entry<V>>, l: seq<Stamp<V>>, ttl: int, start: nat, now: int) {
    forall i :: start <= i < |l| && now <= l[i].at + ttl ==> l[i].key in m
  }

  // Before position `start`, only expired entries are left in the map.
  ghost predicate Stale<V>(m: map<string, Entry<V>>, l: seq<Stamp<V>>, ttl: int, start: nat, now: int) {
    forall i :: 0 <= i < start && i < |l| && l[i].key in m ==> now > l[i].at + ttl
  }

  ghost predicate Tracks<V>(m: map<string, Entry<V>>, l: seq<Stamp<V>>, ttl: int, max: int, clock: int)
    requires max >= 1
  {
    && Ordered(l, clock) && Faithful(m, l, ttl)
    && Complete(m, l, ttl, WindowStart(l, max), clock)
    && Stale(m, l, ttl, WindowStart(l, max), clock)
    && |m| <= max
  }

  function WindowKeys<V>(l: seq<Stamp<V>>, start: nat): (keys: set<string>)
    ensures forall k :: k in keys <==> exists i :: start <= i < |l| && l[i].key == k
  {
    set i | start <= i < |l| :: l[i].key
  }

  lemma {:induction false} WindowSize<V>(l: seq<Stamp<V>>, start: nat)
    requires Distinct(l) && start <= |l|
    ensures |WindowKeys(l, start)| == |l| - start
    decreases |l| - start
  {
    if start < |l| {
      WindowSize(l, start + 1);
      assert WindowKeys(l, start) == WindowKeys(l, start + 1) + {l[start].key};
    } else {
      assert WindowKeys(l, start) == {};
    }
  }

  lemma IndexIsUnique<V>(l: seq<Stamp<V>>, i: nat)
    requires Distinct(l) && i < |l|
    ensures IndexOf(l, l[i].key) == Some(i)
  {
    var j := IndexOf(l, l[i].key).value;
    assert l[j].key == l[i].key;
  }

  // The map answers exactly what the window answers, at any instant not before
  // the last change.
  lemma TracksMeansWindow<V>(m: map<string, Entry<V>>, l: seq<Stamp<V>>, ttl: int, max: int, clock: int,
                             key: string, now: int)
    requires max >= 1 && Tracks(m, l, ttl, max, clock) && clock <= now
    ensures WindowGet(l, ttl, max, key, now)
         == if key in m && now <= m[key].expiresAt then Some(m[key].result) else None
  {
  }

  // A hit is linearised at its lookup: whatever the clock says afterwards, the
  // value was in the window and unexpired at the instant of the lookup.
  lemma HitLinearizes<V>(m: map<string, Entry<V>>, l: seq<Stamp<V>>, ttl: int, max: int, clock: int,
                         key: string, lookup: int, checked: int)
    requires max >= 1 && Tracks(m, l, ttl, max, clock)
    requires clock <= lookup <= checked
    requires key in m && checked <= m[key].expiresAt
    ensures WindowGet(l, ttl, max, key, lookup) == Some(m[key].result)
  {
    TracksMeansWindow(m, l, ttl, max, clock, key, lookup);
  }

  ghost predicate Submap<V>(sub: map<string, Entry<V>>, m: map<string, Entry<V>>) {
    forall k :: k in sub ==> k in m && sub[k] == m[k]
  }

  lemma SubmapKeeps<V>(sub: map<string, Entry<V>>, m: map<string, Entry<V>>, l: seq<Stamp<V>>, ttl: int,
                       start: nat, now: int)
    requires Submap(sub, m) && Faithful(m, l, ttl)
    ensures Faithful(sub, l, ttl) && |sub| <= |m|
    ensures Stale(m, l, ttl, start, now) ==> Stale(sub, l, ttl, start, now)
  {
    SubsetSize(sub.Keys, m.Keys);
  }

  // Dropping expired entries loses nothing the window would answer.
  lemma {:induction false} DroppingExpiredKeeps<V>(sub: map<string, Entry<V>>, m: map<string, Entry<V>>,
                                                   l: seq<Stamp<V>>, ttl: int, max: int, clock: int, now: int)
    requires max >= 1 && Tracks(m, l, ttl, max, clock) && clock <= now
    requires Submap(sub, m) && forall k :: k in m && k !in sub ==> Expired(m, k, now)
    ensures Tracks(sub, l, ttl, max, now)
  {
    SubmapKeeps(sub, m, l, ttl, WindowStart(l, max), now);
    forall i | WindowStart(l, max) <= i < |l| && now <= l[i].at + ttl ensures l[i].key in sub {
      IndexIsUnique(l, i);
      assert l[i].key in m && !Expired(m, l[i].key, now);
    }
  }

  // A window of which nothing has expired is in the map as a whole.
  lemma UnexpiredWindowIsInMap<V>(m: map<string, Entry<V>>, l: seq<Stamp<V>>, ttl: int, max: int, clock: int)
    requires max >= 1 && Tracks(m, l, ttl, max, clock)
    requires |l| >= max && clock <= l[|l| - max].at + ttl
    ensures WindowKeys(l, |l| - max) <= m.Keys && |WindowKeys(l, |l| - max)| == max
  {
    var s := |l| - max;
    forall i | s <= i < |l| ensures l[i].key in m {
      assert l[s].at <= l[i].at;
    }
    WindowSize(l, s);
  }

  // A map full of live entries is the whole window.
  lemma FullOfLiveIsWindow<V>(m: map<string, Entry<V>>, l: seq<Stamp<V>>, ttl: int, max: int, clock: int)
    requires max >= 1 && Tracks(m, l, ttl, max, clock)
    requires |m| == max && forall k :: k in m ==> !Expired(m, k, clock)
    ensures |l| >= max && m.Keys == WindowKeys(l, |l| - max)
  {
    var s := WindowStart(l, max);
    forall k | k in m ensures k in WindowKeys(l, s) {
      var i := IndexOf(l, k).value;
      assert l[i].key == k;
    }
    WindowSize(l, s);
    SameSizeSubset(m.Keys, WindowKeys(l, s));
  }

  // The window loses its oldest position to a key that was not part of it.
  ghost predicate Slides<V>(l: seq<Stamp<V>>, max: int, key: string)
    requires max >= 1
  {
    |l| >= max && (IndexOf(l, key).None? || IndexOf(l, key).value < |l| - max)
  }

  // Where the part of the old list begins that the new window still covers.
  ghost function Kept<V>(l: seq<Stamp<V>>, max: int, key: string): nat
    requires max >= 1
  {
    if Slides(l, max, key) then WindowStart(l, max) + 1 else WindowStart(l, max)
  }

  lemma FaithfulAfterTouch<V>(m: map<string, Entry<V>>, l: seq<Stamp<V>>, ttl: int, e: Stamp<V>)
    requires Distinct(l) && Increasing(l) && Later(l, e.at) && Faithful(m, l, ttl)
    ensures Faithful(m[e.key := Entry(e.result, e.at + ttl)], Touch(l, e), ttl)
  {
    TouchShape(l, e);
    var l', m' := Touch(l, e), m[e.key := Entry(e.result, e.at + ttl)];
    forall k | k in m'
      ensures var i := IndexOf(l', k); i.Some? && m'[k] == Entry(l'[i.value].result, l'[i.value].at + ttl)
    {
      if k == e.key {
        IndexIsUnique(l', |l'| - 1);
      } else {
        var x := l[IndexOf(l, k).value];
        TouchMembers(l, e, x);
        var i :| 0 <= i < |l'| && l'[i] == x;
        IndexIsUnique(l', i);
      }
    }
  }

  lemma CompleteAfterTouch<V>(m: map<string, Entry<V>>, l: seq<Stamp<V>>, ttl: int, max: int, e: Stamp<V>)
    requires max >= 1 && Distinct(l) && Increasing(l) && Later(l, e.at)
    requires Complete(m, l, ttl, Kept(l, max, e.key), e.at)
    ensures Complete(m[e.key := Entry(e.result, e.at + ttl)], Touch(l, e), ttl, WindowStart(Touch(l, e), max), e.at)
  {
    TouchShape(l, e);
    var l' := Touch(l, e);
    forall i | WindowStart(l', max) <= i < |l'| - 1 ensures Kept(l, max, e.key) <= Before(l, e.key, i) {
    }
  }

  lemma StaleAfterTouch<V>(m: map<string, Entry<V>>, l: seq<Stamp<V>>, ttl: int, max: int, e: Stamp<V>)
    requires max >= 1 && Distinct(l) && Increasing(l) && Later(l, e.at)
    requires Stale(m, l, ttl, Kept(l, max, e.key), e.at)
    ensures Stale(m[e.key := Entry(e.result, e.at + ttl)], Touch(l, e), ttl, WindowStart(Touch(l, e), max), e.at)
  {
    TouchShape(l, e);
    var l' := Touch(l, e);
    forall i | 0 <= i < WindowStart(l', max) ensures i < |l'| - 1 && Before(l, e.key, i) < Kept(l, max, e.key) {
    }
  }

  lemma TouchKeeps<V>(m: map<string, Entry<V>>, l: seq<Stamp<V>>, ttl: int, max: int, e: Stamp<V>)
    requires max >= 1 && Ordered(l, e.at) && Later(l, e.at) && e.key != "" && Faithful(m, l, ttl)
    requires Complete(m, l, ttl, Kept(l, max, e.key), e.at)
    requires Stale(m, l, ttl, Kept(l, max, e.key), e.at)
    requires |m| <= max && (e.key in m || |m| < max)
    ensures Tracks(m[e.key := Entry(e.result, e.at + ttl)], Touch(l, e), ttl, max, e.at)
  {
    hide Faithful, Complete, Stale;
    TouchShape(l, e);
    FaithfulAfterTouch(m, l, ttl, e);
    CompleteAfterTouch(m, l, ttl, max, e);
    StaleAfterTouch(m, l, ttl, max, e);
    var m' := m[e.key := Entry(e.result, e.at + ttl)];
    assert m'.Keys == m.Keys + {e.key};
  }

  lemma NotInWindow<V>(l: seq<Stamp<V>>, start: nat, key: string)
    requires Distinct(l)
    requires IndexOf(l, key).None? || IndexOf(l, key).value < start
    ensures key !in WindowKeys(l, start)
  {
    forall i: nat | start <= i < |l| ensures l[i].key != key {
      IndexIsUnique(l, i);
    }
  }

  // If the window slides although the map had room or held the key, the position
  // it loses has expired.
  lemma SlideWithRoomIsStale<V>(m: map<string, Entry<V>>, l: seq<Stamp<V>>, ttl: int, max: int, clock: int, e: Stamp<V>)
    requires max >= 1 && Tracks(m, l, ttl, max, clock) && clock <= e.at
    requires e.key in m || |m| < max
    requires Slides(l, max, e.key)
    ensures e.at > l[|l| - max].at + ttl
  {
    var s := |l| - max;
    if e.at <= l[s].at + ttl {
      UnexpiredWindowIsInMap(m, l, ttl, max, clock);
      NotInWindow(l, s, e.key);
      if e.key in m {
        SubsetSize(WindowKeys(l, s) + {e.key}, m.Keys);
      } else {
        SubsetSize(WindowKeys(l, s), m.Keys);
      }
    }
  }

  // A Set that finds the key or finds room.
  lemma SetWithRoom<V>(m: map<string, Entry<V>>, l: seq<Stamp<V>>, ttl: int, max: int, clock: int, e: Stamp<V>)
    requires max >= 1 && Tracks(m, l, ttl, max, clock) && clock <= e.at && e.key != "" && Later(l, e.at)
    requires e.key in m || |m| < max
    ensures Tracks(m[e.key := Entry(e.result, e.at + ttl)], Touch(l, e), ttl, max, e.at)
  {
    hide Faithful, Increasing, Distinct;
    if Slides(l, max, e.key) {
      SlideWithRoomIsStale(m, l, ttl, max, clock, e);
    }
    assert Stale(m, l, ttl, Kept(l, max, e.key), e.at);
    TouchKeeps(m, l, ttl, max, e);
  }

  lemma SoonestIsOldest<V>(m: map<string, Entry<V>>, l: seq<Stamp<V>>, ttl: int, s: nat, victim: string)
    requires Increasing(l) && Distinct(l) && Faithful(m, l, ttl)
    requires s < |l| && m.Keys == WindowKeys(l, s)
    requires victim in m && forall k :: k in m ==> m[victim].expiresAt <= m[k].expiresAt
    ensures var v := IndexOf(l, victim); v.Some? && v.value >= s && l[v.value].at == l[s].at
  {
    var v :| s <= v < |l| && l[v].key == victim;
    assert l[s].key in WindowKeys(l, s);
    IndexIsUnique(l, s);
    IndexIsUnique(l, v);
    assert m[victim].expiresAt <= m[l[s].key].expiresAt;
  }

  // When a full map of live entries must make room, the soonest to expire is one
  // of the oldest of the window, which is what the window itself loses.
  lemma VictimIsOldest<V>(m: map<string, Entry<V>>, l: seq<Stamp<V>>, ttl: int, max: int, clock: int, victim: string)
    requires max >= 1 && Tracks(m, l, ttl, max, clock)
    requires |m| == max && forall k :: k in m ==> !Expired(m, k, clock)
    requires victim in m && forall k :: k in m ==> m[victim].expiresAt <= m[k].expiresAt
    ensures |l| >= max && m.Keys == WindowKeys(l, |l| - max)
    ensures var v := IndexOf(l, victim); v.Some? && v.value >= |l| - max && l[v.value].at == l[|l| - max].at
  {
    hide Faithful, Complete, Stale, Increasing, Distinct;
    FullOfLiveIsWindow(m, l, ttl, max, clock);
    SoonestIsOldest(m, l, ttl, |l| - max, victim);
  }

  // The list with its v-th element moved forward to position s.
  ghost function Promote<V>(l: seq<Stamp<V>>, s: nat, v: nat): seq<Stamp<V>>
    requires s <= v < |l|
  {
    l[..s] + [l[v]] + l[s..v] + l[v + 1..]
  }

  // Where position i of the promoted list was before.
  function Origin(s: nat, v: nat, i: nat): nat {
    if i == s then v else if s < i <= v then i - 1 else i
  }

  lemma PromotePositions<V>(l: seq<Stamp<V>>, s: nat, v: nat)
    requires s <= v < |l|
    ensures |Promote(l, s, v)| == |l|
    ensures forall i :: 0 <= i < |l| ==> Origin(s, v, i) < |l| && Promote(l, s, v)[i] == l[Origin(s, v, i)]
  {
  }

  // Elements of one instant may change places.
  lemma PromoteShape<V>(l: seq<Stamp<V>>, s: nat, v: nat)
    requires s <= v < |l| && Distinct(l) && Increasing(l) && l[v].at == l[s].at
    ensures Distinct(Promote(l, s, v)) && Increasing(Promote(l, s, v)) && |Promote(l, s, v)| == |l|
    ensures forall x :: x in Promote(l, s, v) <==> x in l
  {
    hide Promote;
    PromotePositions(l, s, v);
    var l' := Promote(l, s, v);
    forall x ensures x in l' <==> x in l {
      if x in l {
        var i :| 0 <= i < |l| && l[i] == x;
        var p := if i == v then s else if s <= i < v then i + 1 else i;
        assert l'[p] == x;
      }
    }
    forall i, j | 0 <= i < j < |l'| ensures l'[i].key != l'[j].key && l'[i].at <= l'[j].at {
      assert l'[i] == l[Origin(s, v, i)] && l'[j] == l[Origin(s, v, j)];
    }
  }

  lemma PromoteFinds<V>(l: seq<Stamp<V>>, s: nat, v: nat, key: string)
    requires s <= v < |l| && Distinct(l) && Increasing(l) && l[v].at == l[s].at
    ensures var i, j := IndexOf(l, key), IndexOf(Promote(l, s, v), key);
            && (i.Some? <==> j.Some?)
            && (i.Some? ==> Promote(l, s, v)[j.value] == l[i.value])
  {
    hide Promote, Increasing;
    PromoteShape(l, s, v);
    PromotePositions(l, s, v);
    var l' := Promote(l, s, v);
    if i: nat :| i < |l| && l[i].key == key {
      assert l[i] in l';
      var j :| 0 <= j < |l'| && l'[j] == l[i];
      IndexIsUnique(l, i);
      IndexIsUnique(l', j);
    } else {
      forall j: nat | j < |l'| ensures l'[j].key != key {
        assert l'[j] == l[Origin(s, v, j)];
      }
    }
  }

  // Within the window the list may be rearranged so.
  lemma PromoteTracks<V>(m: map<string, Entry<V>>, l: seq<Stamp<V>>, ttl: int, max: int, clock: int, v: nat)
    requires max >= 1 && |l| >= max && Tracks(m, l, ttl, max, clock)
    requires |l| - max <= v < |l| && l[v].at == l[|l| - max].at
    ensures Tracks(m, Promote(l, |l| - max, v), ttl, max, clock)
  {
    hide Promote, Faithful, Complete, Stale, Ordered;
    PromoteFaithful(m, l, ttl, clock, |l| - max, v);
    PromoteBounds(m, l, ttl, clock, |l| - max, v);
  }

  lemma PromoteFaithful<V>(m: map<string, Entry<V>>, l: seq<Stamp<V>>, ttl: int, clock: int, s: nat, v: nat)
    requires s <= v < |l| && l[v].at == l[s].at && Ordered(l, clock) && Faithful(m, l, ttl)
    ensures Faithful(m, Promote(l, s, v), ttl)
  {
    hide Promote;
    var l' := Promote(l, s, v);
    forall k | k in m
      ensures var i := IndexOf(l', k); i.Some? && m[k] == Entry(l'[i.value].result, l'[i.value].at + ttl)
    {
      PromoteFinds(l, s, v, k);
    }
  }

  lemma PromoteBounds<V>(m: map<string, Entry<V>>, l: seq<Stamp<V>>, ttl: int, clock: int, s: nat, v: nat)
    requires s <= v < |l| && l[v].at == l[s].at && Ordered(l, clock)
    requires Complete(m, l, ttl, s, clock) && Stale(m, l, ttl, s, clock)
    ensures var l' := Promote(l, s, v);
            && |l'| == |l| && Ordered(l', clock) && Complete(m, l', ttl, s, clock) && Stale(m, l', ttl, s, clock)
  {
    hide Promote;
    PromoteShape(l, s, v);
    hide Increasing, Distinct;
    PromotePositions(l, s, v);
  }

  lemma PromoteIsRecency<V>(l: seq<Stamp<V>>, sets: seq<Stamp<V>>, s: nat, v: nat)
    requires s <= v < |l| && IsRecency(l, sets) && l[v].at == l[s].at
    ensures IsRecency(Promote(l, s, v), sets)
  {
    PromoteShape(l, s, v);
  }

  lemma AfterVictim<V>(m: map<string, Entry<V>>, l: seq<Stamp<V>>, ttl: int, max: int, now: int)
    requires max >= 1 && Distinct(l) && |l| >= max && m.Keys == WindowKeys(l, |l| - max)
    ensures var m1 := m - {l[|l| - max].key};
            Complete(m1, l, ttl, |l| - max + 1, now) && Stale(m1, l, ttl, |l| - max + 1, now)
  {
    var s := |l| - max;
    var m1 := m - {l[s].key};
    forall i | s + 1 <= i < |l| ensures l[i].key in m1 {
      assert l[i].key in WindowKeys(l, s);
    }
    forall i | 0 <= i < s + 1 ensures l[i].key !in m1 {
      if l[i].key in WindowKeys(l, s) {
        var j :| s <= j < |l| && l[j].key == l[i].key;
        assert i == j;
      }
    }
  }

  lemma OrderedLater<V>(l: seq<Stamp<V>>, clock: int, now: int)
    requires Ordered(l, clock) && clock <= now
    ensures Ordered(l, now) && Distinct(l)
  {
  }

  lemma KeptPastVictim<V>(l: seq<Stamp<V>>, max: int, key: string)
    requires max >= 1 && |l| >= max && key !in WindowKeys(l, |l| - max)
    ensures Kept(l, max, key) == |l| - max + 1
  {
    var start := |l| - max;
    forall i | start <= i < |l| ensures l[i].key != key {
      assert l[i].key in WindowKeys(l, start);
    }
  }

  lemma SetByEviction<V>(m: map<string, Entry<V>>, l: seq<Stamp<V>>, ttl: int, max: int, clock: int, e: Stamp<V>)
    requires max >= 1 && Tracks(m, l, ttl, max, clock) && clock <= e.at && e.key != "" && Later(l, e.at)
    requires e.key !in m && |l| >= max && m.Keys == WindowKeys(l, |l| - max)
    ensures Tracks((m - {l[|l| - max].key})[e.key := Entry(e.result, e.at + ttl)], Touch(l, e), ttl, max, e.at)
  {
    hide Faithful, Complete, Stale, Ordered, WindowKeys, Kept;
    OrderedLater(l, clock, e.at);
    AfterVictim(m, l, ttl, max, e.at);
    var s := |l| - max;
    var victim := l[s].key;
    var m1 := m - {victim};
    assert m1.Keys == m.Keys - {victim};
    assert victim in m by { OldestIsIn(l, s); }
    KeptPastVictim(l, max, e.key);
    SubmapKeeps(m1, m, l, ttl, s, e.at);
    TouchKeeps(m1, l, ttl, max, e);
  }

  lemma OldestIsIn<V>(l: seq<Stamp<V>>, s: nat)
    requires s < |l|
    ensures l[s].key in WindowKeys(l, s)
  {
  }

  // The map Set leaves behind when the scan visits in this order.
  ghost function AfterSet<V>(m: map<string, Entry<V>>, ttl: int, max: int, evictAt: int, e: Stamp<V>,
                             order: seq<string>)
    : map<string, Entry<V>>
    requires forall k :: k in order ==> k in m
  {
    var room := if e.key !in m && |m| >= max then Evicted(m, evictAt, max, order) else m;
    room[e.key := Entry(e.result, e.at + ttl)]
  }

  // The recency list the map follows after the eviction: what the scan gave up
  // counts as the oldest of its instant.
  ghost function Aged<V>(m: map<string, Entry<V>>, l: seq<Stamp<V>>, max: int, evictAt: int, key: string,
                         order: seq<string>)
    : seq<Stamp<V>>
    requires forall k :: k in order ==> k in m
  {
    var v := IndexOf(l, Scan(m, evictAt, order));
    if key !in m && |m| >= max && |Live(m, evictAt)| >= max && |l| >= max >= 1 && v.Some? && v.value >= |l| - max
    then Promote(l, |l| - max, v.value) else l
  }

  // What the scan finds in a full map is one of the oldest of the window.
  lemma ScanFindsOldest<V>(m: map<string, Entry<V>>, l: seq<Stamp<V>>, ttl: int, max: int, evictAt: int,
                           order: seq<string>)
    requires max >= 1 && Tracks(Live(m, evictAt), l, ttl, max, evictAt) && |Live(m, evictAt)| >= max
    requires Enumerates(order, m.Keys) && "" !in m
    ensures var soonest := Scan(m, evictAt, order);
            && soonest != "" && |l| >= max && Live(m, evictAt).Keys == WindowKeys(l, |l| - max)
            && var v := IndexOf(l, soonest);
               v.Some? && v.value >= |l| - max && l[v.value].at == l[|l| - max].at
  {
    hide Faithful, Complete, Stale, Increasing, Distinct;
    var live, soonest := Live(m, evictAt), Scan(m, evictAt, order);
    ScanFindsSoonest(m, evictAt, order);
    SomeKeyLive(m, evictAt, max);
    VictimIsOldest(live, l, ttl, max, evictAt, soonest);
  }

  // A Set into a full map, whatever the scan settles on.
  lemma SetByScan<V>(m: map<string, Entry<V>>, l: seq<Stamp<V>>, ttl: int, max: int, evictAt: int,
                     e: Stamp<V>, order: seq<string>)
    requires max >= 1 && Tracks(Live(m, evictAt), l, ttl, max, evictAt)
    requires evictAt <= e.at && e.key != "" && Later(l, e.at)
    requires Enumerates(order, m.Keys) && "" !in m && e.key !in m && |m| >= max
    ensures Tracks(Evicted(m, evictAt, max, order)[e.key := Entry(e.result, e.at + ttl)],
                   Touch(Aged(m, l, max, evictAt, e.key, order), e), ttl, max, e.at)
  {
    hide Tracks, WindowKeys, Increasing, Distinct, Promote;
    var live, soonest := Live(m, evictAt), Scan(m, evictAt, order);
    if |live| >= max {
      ScanFindsOldest(m, l, ttl, max, evictAt, order);
      var s, v := |l| - max, IndexOf(l, soonest).value;
      var l' := Promote(l, s, v);
      PromoteTracks(live, l, ttl, max, evictAt, v);
      PromotedWindow(live, l, ttl, max, evictAt, v, e.at);
      SetByEviction(live, l', ttl, max, evictAt, e);
    } else {
      SetWithRoom(live, l, ttl, max, evictAt, e);
    }
  }

  lemma PromotedWindow<V>(m: map<string, Entry<V>>, l: seq<Stamp<V>>, ttl: int, max: int, clock: int, v: nat,
                          at: int)
    requires max >= 1 && |l| >= max && Tracks(m, l, ttl, max, clock) && Later(l, at)
    requires |l| - max <= v < |l| && l[v].at == l[|l| - max].at
    ensures var l', s := Promote(l, |l| - max, v), |l| - max;
            && |l'| == |l| && l'[s] == l[v] && WindowKeys(l', s) == WindowKeys(l, s) && Later(l', at)
  {
    hide Promote;
    var s := |l| - max;
    var l' := Promote(l, s, v);
    PromotePositions(l, s, v);
    forall k ensures k in WindowKeys(l', s) <==> k in WindowKeys(l, s) {
      if i :| s <= i < |l'| && l'[i].key == k {
        assert l[Origin(s, v, i)].key == k;
      }
      if i :| s <= i < |l| && l[i].key == k {
        var p := if i == v then s else if s <= i < v then i + 1 else i;
        assert l'[p] == l[i];
      }
    }
  }

  lemma AgedIsRecency<V>(m: map<string, Entry<V>>, l: seq<Stamp<V>>, sets: seq<Stamp<V>>, ttl: int, max: int,
                         clock: int, evictAt: int, e: Stamp<V>, order: seq<string>)
    requires max >= 1 && IsRecency(l, sets) && Tracks(m, l, ttl, max, clock) && clock <= evictAt <= e.at
    requires Enumerates(order, m.Keys)
    ensures IsRecency(Aged(m, l, max, evictAt, e.key, order), sets)
    ensures Later(Aged(m, l, max, evictAt, e.key, order), e.at)
  {
    hide Promote, IsRecency, Tracks, WindowKeys;
    TracksIsLater(m, l, ttl, max, clock, e.at);
    var live := Live(m, evictAt);
    if e.key !in m && |m| >= max && |live| >= max {
      NoEmptyKey(m, l, ttl, max, clock);
      DroppingExpiredKeeps(live, m, l, ttl, max, clock, evictAt);
      ScanFindsOldest(m, l, ttl, max, evictAt, order);
      var v := IndexOf(l, Scan(m, evictAt, order)).value;
      PromoteIsRecency(l, sets, |l| - max, v);
      PromotedWindow(live, l, ttl, max, evictAt, v, e.at);
    }
  }

  lemma TracksIsLater<V>(m: map<string, Entry<V>>, l: seq<Stamp<V>>, ttl: int, max: int, clock: int, at: int)
    requires max >= 1 && Tracks(m, l, ttl, max, clock) && clock <= at
    ensures Later(l, at)
  {
  }

  // Whatever the order of the visit, Set moves the window and the map together.
  lemma SetKeeps<V>(m: map<string, Entry<V>>, l: seq<Stamp<V>>, ttl: int, max: int, clock: int, evictAt: int,
                    e: Stamp<V>, order: seq<string>)
    requires max >= 1 && Tracks(m, l, ttl, max, clock) && clock <= evictAt <= e.at && e.key != ""
    requires Enumerates(order, m.Keys)
    ensures Tracks(AfterSet(m, ttl, max, evictAt, e, order), Touch(Aged(m, l, max, evictAt, e.key, order), e), ttl, max,
                   e.at)
  {
    hide Tracks, Faithful, Ordered, Enumerates, Evicted;
    TracksIsLater(m, l, ttl, max, clock, e.at);
    if e.key !in m && |m| >= max {
      hide Aged;
      DroppingExpiredKeeps(Live(m, evictAt), m, l, ttl, max, clock, evictAt);
      NoEmptyKey(m, l, ttl, max, clock);
      SetByScan(m, l, ttl, max, evictAt, e, order);
    } else {
      SetWithRoom(m, l, ttl, max, clock, e);
    }
  }

  // A Set moves the history, its recency list and the map together.
  lemma SetMoves<V>(m: map<string, Entry<V>>, l: seq<Stamp<V>>, sets: seq<Stamp<V>>, ttl: int, max: int, clock: int,
                    evictAt: int, e: Stamp<V>, order: seq<string>)
    requires max >= 1 && IsRecency(l, sets) && Tracks(m, l, ttl, max, clock)
    requires clock <= evictAt <= e.at && e.key != ""
    requires Enumerates(order, m.Keys)
    ensures var l' := Touch(Aged(m, l, max, evictAt, e.key, order), e);
            IsRecency(l', sets + [e]) && Tracks(AfterSet(m, ttl, max, evictAt, e, order), l', ttl, max, e.at)
  {
    hide Tracks, IsRecency, Touch, AfterSet, Later, Aged;
    SetKeeps(m, l, ttl, max, clock, evictAt, e, order);
    AgedIsRecency(m, l, sets, ttl, max, clock, evictAt, e, order);
    TouchIsRecency(Aged(m, l, max, evictAt, e.key, order), sets, e);
  }

  lemma NoEmptyKey<V>(m: map<string, Entry<V>>, l: seq<Stamp<V>>, ttl: int, max: int, clock: int)
    requires max >= 1 && Tracks(m, l, ttl, max, clock)
    ensures "" !in m
  {
  }

  // ---------------------------------------------------------------------------
  // Whole histories

  // A change of the map: a Set, or the second half of a Get.
  datatype Op<+V> =
    | DoSet(stamp: Stamp<V>, evictAt: int, order: seq<string>)
    | DoDrop(key: string, now: int)

  function Clock<V>(ops: seq<Op<V>>): int {
    if ops == [] then 0
    else match ops[|ops| - 1]
      case DoSet(e, _, _) => e.at
      case DoDrop(_, now) => now
  }

  function Sets<V>(ops: seq<Op<V>>): seq<Stamp<V>> {
    if ops == [] then []
    else Sets(ops[..|ops| - 1]) + (if ops[|ops| - 1].DoSet? then [ops[|ops| - 1].stamp] else [])
  }

  ghost function Replay<V>(ops: seq<Op<V>>, ttl: int, max: int): map<string, Entry<V>> {
    if ops == [] then map[]
    else
      var m := Replay(ops[..|ops| - 1], ttl, max);
      match ops[|ops| - 1]
      case DoSet(e, evictAt, order) =>
        if Enumerates(order, m.Keys) then AfterSet(m, ttl, max, evictAt, e, order) else m
      case DoDrop(key, now) => if key in m && Expired(m, key, now) then m - {key} else m
  }

  // The clock never goes back, keys are not empty, and every eviction scan visits
  // the whole map in some order.
  ghost predicate Legal<V>(ops: seq<Op<V>>, ttl: int, max: int) {
    ops == [] ||
    var init := ops[..|ops| - 1];
    Legal(init, ttl, max) &&
    match ops[|ops| - 1]
    case DoSet(e, evictAt, order) =>
      && e.key != "" && Clock(init) <= evictAt <= e.at
      && Enumerates(order, Replay(init, ttl, max).Keys)
    case DoDrop(key, now) => Clock(init) <= now
  }

  lemma {:induction false} HistoryTracks<V>(ops: seq<Op<V>>, ttl: int, max: int) returns (l: seq<Stamp<V>>)
    requires max >= 1 && Legal(ops, ttl, max)
    ensures IsRecency(l, Sets(ops)) && Tracks(Replay(ops, ttl, max), l, ttl, max, Clock(ops))
  {
    if ops == [] {
      l := [];
    } else {
      hide Tracks, IsRecency, Enumerates;
      var init := ops[..|ops| - 1];
      l := HistoryTracks(init, ttl, max);
      var m := Replay(init, ttl, max);
      match ops[|ops| - 1]
      case DoSet(e, evictAt, order) =>
        SetMoves(m, l, Sets(init), ttl, max, Clock(init), evictAt, e, order);
        l := Touch(Aged(m, l, max, evictAt, e.key, order), e);
      case DoDrop(key, now) =>
        DroppingExpiredKeeps(Replay(ops, ttl, max), m, l, ttl, max, Clock(init), now);
        assert Sets(ops) == Sets(init);
    }
  }

  // The window refinement: after every history of Sets and expired Gets, whatever
  // order the scans visited in, the map holds at most max entries and answers,
  // from then on and for every key, exactly what the window over a recency list of
  // the Sets answers.
  lemma HistoryIsWindow<V(!new)>(ops: seq<Op<V>>, ttl: int, max: int)
    requires max >= 1 && Legal(ops, ttl, max)
    ensures var m := Replay(ops, ttl, max);
            |m| <= max &&
            exists l :: IsRecency(l, Sets(ops)) && forall key, now | now >= Clock(ops) ::
              WindowGet(l, ttl, max, key, now)
              == if key in m && now <= m[key].expiresAt then Some(m[key].result) else None
  {
    var m := Replay(ops, ttl, max);
    var l := HistoryTracks(ops, ttl, max);
    forall key, now | now >= Clock(ops)
      ensures WindowGet(l, ttl, max, key, now)
           == if key in m && now <= m[key].expiresAt then Some(m[key].result) else None
    {
      TracksMeansWindow(m, l, ttl, max, Clock(ops), key, now);
    }
  }

  // ---------------------------------------------------------------------------
  // A Get between whose lookup and reading of the clock the map changed

  // Whether the window answers after a history, by HistoryIsWindow.
  ghost predicate Answers<V>(ops: seq<Op<V>>, ttl: int, max: int, key: string, now: int) {
    var m := Replay(ops, ttl, max);
    key in m && now <= m[key].expiresAt
  }

  // The lookup comes after `before`, the reading of the clock after `between` as
  // well, and what the lookup found, if anything, is expired by then.
  ghost predicate Misses<V>(before: seq<Op<V>>, between: seq<Op<V>>, ttl: int, max: int, key: string, checked: int) {
    && Legal(before + between, ttl, max) && Clock(before + between) <= checked
    && !Answers(before, ttl, max, key, checked)
  }

  // Until when the k-th state of the map since the lookup lasted.
  function Until<V>(before: seq<Op<V>>, between: seq<Op<V>>, k: nat, checked: int): int
    requires k <= |between|
  {
    if k < |between| then Clock(before + between[..k + 1]) else checked
  }

  ghost predicate AbsentAt<V>(before: seq<Op<V>>, between: seq<Op<V>>, ttl: int, max: int, key: string,
                              checked: int, k: nat, now: int) {
    && k <= |between| && Clock(before + between[..k]) <= now <= Until(before, between, k, checked)
    && !Answers(before + between[..k], ttl, max, key, now)
  }

  // At some instant from the lookup to the reading of the clock the window did not
  // answer.
  ghost predicate Linearizes<V>(before: seq<Op<V>>, between: seq<Op<V>>, ttl: int, max: int, key: string,
                                checked: int) {
    exists k: nat, now :: AbsentAt(before, between, ttl, max, key, checked, k, now)
  }

  // A Set of the key while what the lookup found is unexpired.
  predicate Refreshes<V>(op: Op<V>, key: string, expiresAt: int) {
    op.DoSet? && op.stamp.key == key && op.stamp.at <= expiresAt
  }

  lemma {:induction false} ClockMoves<V>(a: seq<Op<V>>, b: seq<Op<V>>, ttl: int, max: int)
    requires Legal(a + b, ttl, max)
    ensures Legal(a, ttl, max) && Clock(a) <= Clock(a + b)
  {
    if b == [] {
      assert a + b == a;
    } else {
      hide Replay, Enumerates;
      assert (a + b)[..|a + b| - 1] == a + b[..|b| - 1];
      ClockMoves(a, b[..|b| - 1], ttl, max);
    }
  }

  lemma AbsentLater<V>(before: seq<Op<V>>, between: seq<Op<V>>, ttl: int, max: int, key: string, checked: int,
                       k: nat, now: int)
    requires between != [] && AbsentAt(before + [between[0]], between[1..], ttl, max, key, checked, k, now)
    ensures AbsentAt(before, between, ttl, max, key, checked, k + 1, now)
  {
    hide Replay, Answers, Clock;
    assert before + [between[0]] + between[1..][..k] == before + between[..k + 1];
    if k + 1 < |between| {
      assert before + [between[0]] + between[1..][..k + 1] == before + between[..k + 2];
    }
  }

  // A change that neither removes nor Sets a key keeps its entry.
  lemma OthersKeep<V>(ops: seq<Op<V>>, op: Op<V>, ttl: int, max: int, key: string)
    requires key in Replay(ops, ttl, max) && key in Replay(ops + [op], ttl, max)
    requires op.DoSet? ==> op.stamp.key != key
    ensures Replay(ops + [op], ttl, max)[key] == Replay(ops, ttl, max)[key]
  {
    hide Scan;
    assert (ops + [op])[..|ops|] == ops;
  }

  // A miss is linearised somewhere between its lookup and its reading of the clock,
  // unless the key was Set in between while what the lookup found was unexpired.
  lemma {:induction false} MissLinearizes<V>(before: seq<Op<V>>, between: seq<Op<V>>, ttl: int, max: int, key: string,
                                             checked: int)
    requires Misses(before, between, ttl, max, key, checked)
    requires key in Replay(before, ttl, max) ==>
               forall i :: 0 <= i < |between| ==> !Refreshes(between[i], key, Replay(before, ttl, max)[key].expiresAt)
    ensures Linearizes(before, between, ttl, max, key, checked)
    decreases |between|
  {
    hide Replay, Legal;
    assert before + between[..0] == before;
    ClockMoves(before, between, ttl, max);
    if between == [] {
      assert before + between == before;
      assert AbsentAt(before, between, ttl, max, key, checked, 0, checked);
    } else {
      var op, next := between[0], before + [between[0]];
      var at := Clock(next);
      assert next + between[1..] == before + between && before + between[..1] == next;
      ClockMoves(next, between[1..], ttl, max);
      ClockMoves(before, [op], ttl, max);
      if !Answers(before, ttl, max, key, at) {
        assert AbsentAt(before, between, ttl, max, key, checked, 0, at);
      } else {
        if key in Replay(next, ttl, max) {
          OthersKeep(before, op, ttl, max, key);
        }
        MissLinearizes(next, between[1..], ttl, max, key, checked);
        var k: nat, now :| AbsentAt(next, between[1..], ttl, max, key, checked, k, now);
        AbsentLater(before, between, ttl, max, key, checked, k, now);
      }
    }
  }

  // With one Set of the key in between, after any history, the condition is exact:
  // such a miss is linearised if and only if what the lookup found had expired
  // before the Set, or what was Set has expired at the reading of the clock too.
  lemma {:induction false} RefreshedMissIff<V>(before: seq<Op<V>>, op: Op<V>, ttl: int, max: int, key: string,
                                               checked: int)
    requires Misses(before, [op], ttl, max, key, checked) && key in Replay(before, ttl, max)
    requires op.DoSet? && op.stamp.key == key && ttl >= 0
    ensures Linearizes(before, [op], ttl, max, key, checked)
       <==> !Refreshes(op, key, Replay(before, ttl, max)[key].expiresAt) || checked > op.stamp.at + ttl
  {
    hide Enumerates, Scan;
    var next := before + [op];
    assert next[..|before|] == before;
    assert Replay(next, ttl, max)[key] == Entry(op.stamp.result, op.stamp.at + ttl);
    assert [op][..0] == [] && before + [] == before && [op][..1] == [op];
    ClockMoves(before, [op], ttl, max);
    if op.stamp.at > Replay(before, ttl, max)[key].expiresAt {
      assert AbsentAt(before, [op], ttl, max, key, checked, 0, op.stamp.at);
    } else if checked > op.stamp.at + ttl {
      assert AbsentAt(before, [op], ttl, max, key, checked, 1, checked);
    } else {
      forall k: nat, now ensures !AbsentAt(before, [op], ttl, max, key, checked, k, now) {
        assert k <= 1 ==> before + [op][..k] == if k == 0 then before else next;
      }
    }
  }

  // Under every TTL and size: Set at 0, looked up, Set again as late as the first
  // entry allows, and the clock read just after. The key was there throughout.
  lemma SpuriousMiss<V>(ttl: int, max: int, key: string, result: V)
    requires ttl >= 1 && max >= 1 && key != ""
    ensures exists before, between, checked ::
              Misses<V>(before, between, ttl, max, key, checked) && !Linearizes(before, between, ttl, max, key, checked)
  {
    var first := DoSet(Stamp(key, result, 0), 0, []);
    var again := DoSet(Stamp(key, result, ttl), ttl, [key]);
    var before: seq<Op<V>> := [first];
    var none: seq<Op<V>> := [];
    assert before[..0] == none && (before + [again])[..1] == before;
    assert Legal(none, ttl, max) && Replay(none, ttl, max) == map[] && Enumerates([], {});
    assert Replay(before, ttl, max) == map[key := Entry(result, ttl)];
    assert Legal(before, ttl, max);
    assert Legal(before + [again], ttl, max);
    RefreshedMissIff(before, again, ttl, max, key, ttl + 1);
  }
}

module TtlCache {
  import opened Domain
  import opened TtlWindow

  class Cache<V> {
    var entries: map<string, Entry<V>>
    const ttl: int
    const maxEntries: int
    ghost var sets: seq<Stamp<V>>     // every Set so far
    ghost var recency: seq<Stamp<V>>  // the last Set of every key, oldest first
    ghost var clock: int              // the latest instant a change has seen

    ghost predicate Valid()
      reads this
    {
      && maxEntries >= 1
      && IsRecency(recency, sets)
      && Tracks(entries, recency, ttl, maxEntries, clock)
    }

    constructor (ttl: int, maxEntries: int)
      requires maxEntries >= 1
      ensures Valid() && sets == [] && entries == map[] && clock == 0
      ensures this.ttl == ttl && this.maxEntries == maxEntries
    {
      this.ttl, this.maxEntries := ttl, maxEntries;
      entries := map[];
      sets, recency := [], [];
      clock := 0;
    }

    // First half of Get: the read-locked lookup.
    method Lookup(key: string) returns (e: Option<Entry<V>>)
      ensures e == if key in entries then Some(entries[key]) else None
    {
      e := if key in entries then Some(entries[key]) else None;
    }

    // Second half of Get on an expired entry: whatever happened since the lookup,
    // it removes the key only if the entry now there has expired.
    method DropIfExpired(key: string, now: int)
      requires Valid() && clock <= now
      modifies this
      ensures Valid() && sets == old(sets) && recency == old(recency) && clock == now
      ensures entries == if key in old(entries) && now > old(entries)[key].expiresAt then old(entries) - {key}
                         else old(entries)
    {
      hide Tracks;
      ghost var m := entries;
      if key in entries && now > entries[key].expiresAt {
        entries := entries - {key};
      }
      DroppingExpiredKeeps(entries, m, recency, ttl, maxEntries, clock, now);
      clock := now;
    }

    // A Get that no other call interleaves answers exactly what the window does.
    method Get(key: string, now: int, later: int) returns (r: Option<V>)
      requires Valid() && clock <= now <= later
      modifies this
      ensures Valid() && sets == old(sets) && recency == old(recency) && clock <= later
      ensures entries == if key in old(entries) && r.None? && later > old(entries)[key].expiresAt
                         then old(entries) - {key} else old(entries)
      ensures if r.Some? then key in entries && entries[key].result == r.value else key !in entries
      ensures r == WindowGet(recency, ttl, maxEntries, key, now)
    {
      TracksMeansWindow(entries, recency, ttl, maxEntries, clock, key, now);
      var e := Lookup(key);
      if e.None? {
        return None;
      }
      if now > e.value.expiresAt {
        DropIfExpired(key, later);
        return None;
      }
      return Some(e.value.result);
    }

    method Set(key: string, result: V, evictAt: int, now: int)
      requires Valid() && key != ""
      requires clock <= evictAt <= now
      modifies this
      ensures Valid()
      ensures sets == old(sets) + [Stamp(key, result, now)] && clock == now
      ensures key in entries && entries[key] == Entry(result, now + ttl)
      ensures forall k :: k in entries && k != key ==> k in old(entries) && entries[k] == old(entries)[k]
    {
      hide Tracks, IsRecency, Enumerates, Touch, Evicted, Aged;
      ghost var m, l, e := entries, recency, Stamp(key, result, now);
      ghost var order := AnyOrder(m.Keys);
      if key !in entries && |entries| >= maxEntries {
        order := EvictLocked(evictAt);
      }
      entries := entries[key := Entry(result, now + ttl)];
      SetMoves(m, l, sets, ttl, maxEntries, clock, evictAt, e, order);
      sets, recency, clock := sets + [e], Touch(Aged(m, l, maxEntries, evictAt, key, order), e), now;
    }

    // Drops expired entries, then the entry the scan settled on if the cache is
    // still full. The order of the visit is arbitrary; the ghost result names it.
    method EvictLocked(now: int) returns (ghost order: seq<string>)
      modifies this`entries
      ensures Enumerates(order, old(entries).Keys)
      ensures entries == Evicted(old(entries), now, maxEntries, order)
      ensures forall k :: k in entries ==> k in old(entries) && entries[k] == old(entries)[k]
    {
      ghost var m := entries;
      order := [];
      var soonestKey, soonest := "", 0;
      var todo := entries.Keys;
      while todo != {}
        invariant todo <= m.Keys
        invariant Enumerates(order, m.Keys - todo)
        invariant forall k :: k in entries <==> k in m && (k in todo || !Expired(m, k, now))
        invariant forall k :: k in entries ==> entries[k] == m[k]
        invariant soonestKey == Scan(m, now, order)
        invariant soonestKey != "" ==> soonest == m[soonestKey].expiresAt
        decreases |todo|
      {
        var k :| k in todo;
        ScanStep(m, now, order, k);
        EnumerateStep(order, m.Keys, todo, k);
        todo := todo - {k};
        order := order + [k];
        var e := entries[k];
        if now > e.expiresAt {
          entries := entries - {k};
          continue;
        }
        if soonestKey == "" || e.expiresAt < soonest {
          soonestKey, soonest := k, e.expiresAt;
        }
      }
      assert m.Keys - todo == m.Keys;
      assert entries == Live(m, now);
      if |entries| >= maxEntries && soonestKey != "" {
        entries := entries - {soonestKey};
      }
    }
  }
}
