/** What `trimLedger` keeps, what it drops, and in which order. */
module EventLedgerTrim {
  import opened EventLedger

  // ---------------------------------------------------------------- record facts

  lemma GetUnique(store: Store, s: Session)
    requires Distinct(store) && s in store
    ensures Has(store, s.sessionId) && Get(store, s.sessionId) == s
  {
    var k :| 0 <= k < |store| && store[k] == s;
    var i := IndexOf(store, s.sessionId);
    assert !(k < i);
  }

  lemma DeleteHas(store: Store, id: string, s: Session)
    requires Distinct(store)
    ensures s in Delete(store, id) <==> s in store && s.sessionId != id
  {
    var i := IndexOf(store, id);
    if i < |store| {
      assert store == store[..i] + [store[i]] + store[i + 1..];
      assert s in store[..i] ==> s.sessionId != id;
      assert s in store[i + 1..] ==> s.sessionId != id;
    }
  }

  /** `delete` removes exactly the session stored under the key. */
  lemma DeleteFacts(store: Store, id: string)
    requires Distinct(store)
    ensures Distinct(Delete(store, id))
    ensures forall s :: s in Delete(store, id) <==> s in store && s.sessionId != id
    ensures |Delete(store, id)| == |store| - (if Has(store, id) then 1 else 0)
  {
    DeleteKeepsDistinct(store, id);
    forall s ensures s in Delete(store, id) <==> s in store && s.sessionId != id {
      DeleteHas(store, id, s);
    }
  }

  lemma DeleteKeepsDistinct(store: Store, id: string)
    requires Distinct(store)
    ensures Distinct(Delete(store, id))
    ensures |Delete(store, id)| == |store| - (if Has(store, id) then 1 else 0)
  {
  }

  // ---------------------------------------------------------------- the relation trimming keeps

  /** `b` is `a` after losing a prefix of its events; losing anything clears `complete`. */
  predicate Shrunk(a: Session, b: Session) {
    && |b.events| <= |a.events|
    && b == a.(events := a.events[|a.events| - |b.events|..],
               complete := a.complete && |a.events| == |b.events|)
  }

  /** Every surviving session is its old self, less a prefix of its events. */
  ghost predicate TrimmedFrom(before: Store, after: Store) {
    && Distinct(after)
    && forall s :: s in after ==> Has(before, s.sessionId) && Shrunk(Get(before, s.sessionId), s)
  }

  lemma ShrunkTransitive(a: Session, b: Session, c: Session)
    requires Shrunk(a, b) && Shrunk(b, c)
    ensures Shrunk(a, c)
  {
    assert c.events == a.events[|a.events| - |c.events|..];
  }

  lemma TrimmedTransitive(a: Store, b: Store, c: Store)
    requires Distinct(a) && TrimmedFrom(a, b) && TrimmedFrom(b, c)
    ensures TrimmedFrom(a, c)
  {
    forall s | s in c ensures Has(a, s.sessionId) && Shrunk(Get(a, s.sessionId), s) {
      var m := Get(b, s.sessionId);
      ShrunkTransitive(Get(a, m.sessionId), m, s);
    }
  }

  lemma PointwiseTrimmed(before: Store, after: Store)
    requires Distinct(before) && |after| == |before|
    requires forall i :: 0 <= i < |before| ==> Shrunk(before[i], after[i])
    ensures TrimmedFrom(before, after)
  {
    forall s | s in after ensures Has(before, s.sessionId) && Shrunk(Get(before, s.sessionId), s) {
      var i :| 0 <= i < |after| && after[i] == s;
      GetUnique(before, before[i]);
    }
  }

  lemma SubsetTrimmed(before: Store, after: Store)
    requires Distinct(before) && Distinct(after)
    requires forall s :: s in after ==> s in before
    ensures TrimmedFrom(before, after)
  {
    forall s | s in after ensures Has(before, s.sessionId) && Shrunk(Get(before, s.sessionId), s) {
      GetUnique(before, s);
      assert s.events == s.events[0..];
    }
  }

  // ---------------------------------------------------------------- phase 2

  lemma {:induction false} NewestFirstSorted(store: Store)
    ensures forall i, j :: 0 <= i < j < |NewestFirst(store)| ==>
              NewestFirst(store)[i].updatedAt >= NewestFirst(store)[j].updatedAt
  {
    if store != [] {
      NewestFirstSorted(store[1..]);
      InsertKeepsSorted(store[0], NewestFirst(store[1..]));
    }
  }

  lemma {:induction false} InsertKeepsSorted(x: Session, rest: Store)
    requires forall i, j :: 0 <= i < j < |rest| ==> rest[i].updatedAt >= rest[j].updatedAt
    ensures forall i, j :: 0 <= i < j < |InsertNewest(x, rest)| ==>
              InsertNewest(x, rest)[i].updatedAt >= InsertNewest(x, rest)[j].updatedAt
  {
    if rest != [] && rest[0].updatedAt > x.updatedAt {
      InsertKeepsSorted(x, rest[1..]);
      var r := InsertNewest(x, rest[1..]);
      InsertNewestMultiset(x, rest[1..]);
      forall k | 0 <= k < |r| ensures r[k].updatedAt <= rest[0].updatedAt {
        assert r[k] in multiset(r);
        assert r[k] == x || r[k] in rest[1..];
      }
    }
  }

  /** Deleting one session by its record's id. */
  lemma DeleteRecord(store: Store, v: Session)
    requires Distinct(store) && v in store
    ensures Distinct(Delete(store, v.sessionId)) && |Delete(store, v.sessionId)| == |store| - 1
    ensures forall s :: s in Delete(store, v.sessionId) <==> s in store && s != v
  {
    GetUnique(store, v);
    DeleteFacts(store, v.sessionId);
    forall s | s in store && s.sessionId == v.sessionId ensures s == v { GetUnique(store, s); }
  }

  lemma {:induction false} DeleteAllFacts(store: Store, victims: Store)
    requires Distinct(store) && Distinct(victims)
    requires forall v :: v in victims ==> v in store
    ensures Distinct(DeleteAll(store, victims))
    ensures |DeleteAll(store, victims)| == |store| - |victims|
    ensures forall s :: s in DeleteAll(store, victims) <==> s in store && s !in victims
    decreases |victims|
  {
    if victims != [] {
      var v, others := victims[0], victims[1..];
      DeleteRecord(store, v);
      assert victims == [v] + others;
      assert v !in others by { assert forall k :: 0 <= k < |others| ==> others[k] == victims[k + 1]; }
      DeleteAllFacts(Delete(store, v.sessionId), others);
    }
  }

  lemma SortKeepsDistinct(store: Store, sorted: Store)
    requires Distinct(store) && multiset(sorted) == multiset(store)
    ensures Distinct(sorted)
  {
    forall i, j | 0 <= i < j < |sorted| ensures sorted[i].sessionId != sorted[j].sessionId {
      var x, y := sorted[i], sorted[j];
      assert x in multiset(sorted) && y in multiset(sorted);
      GetUnique(store, x);
      GetUnique(store, y);
      AtMostOnce(store, x);
      if x == y { TwiceCounts(sorted, i, j); }
    }
  }

  lemma TwiceCounts(s: Store, i: nat, j: nat)
    requires i < j < |s| && s[i] == s[j]
    ensures multiset(s)[s[i]] >= 2
  {
    assert s == s[..i] + [s[i]] + s[i + 1..j] + [s[j]] + s[j + 1..];
  }

  lemma {:induction false} AtMostOnce(store: Store, x: Session)
    requires Distinct(store)
    ensures multiset(store)[x] <= 1
  {
    if store != [] {
      AtMostOnce(store[1..], x);
      assert store == [store[0]] + store[1..];
      assert forall k :: 0 <= k < |store[1..]| ==> store[1..][k].sessionId != store[0].sessionId;
    }
  }

  /** Phase 2 keeps as many sessions as allowed, and none it drops is newer than one it keeps. */
  lemma CapSessionsKeepsNewest(store: Store, max: nat)
    requires Distinct(store)
    ensures |CapSessions(store, max)| == if |store| <= max then |store| else max
    ensures Distinct(CapSessions(store, max))
    ensures forall s :: s in CapSessions(store, max) ==> s in store
    ensures forall kept, dropped :: kept in CapSessions(store, max) && dropped in store
              && dropped !in CapSessions(store, max)
              ==> dropped.updatedAt <= kept.updatedAt
  {
    if |store| > max {
      NewestFirstLength(store);
      NewestFirstSorted(store);
      var sorted := NewestFirst(store);
      SortKeepsDistinct(store, sorted);
      var victims := sorted[max..];
      forall v | v in victims ensures v in store { assert v in multiset(sorted); }
      DeleteAllFacts(store, victims);
      forall kept, dropped | kept in store && kept !in victims && dropped in victims
        ensures dropped.updatedAt <= kept.updatedAt
      {
        assert kept in multiset(sorted);
        TailIsOlder(sorted, max, kept, dropped);
      }
    }
  }

  lemma TailIsOlder(sorted: Store, max: nat, kept: Session, dropped: Session)
    requires max <= |sorted|
    requires forall i, j :: 0 <= i < j < |sorted| ==> sorted[i].updatedAt >= sorted[j].updatedAt
    requires kept in sorted && kept !in sorted[max..] && dropped in sorted[max..]
    ensures dropped.updatedAt <= kept.updatedAt
  {
    var i :| 0 <= i < |sorted| && sorted[i] == kept;
    var j :| 0 <= j < |sorted[max..]| && sorted[max..][j] == dropped;
    forall n | max <= n < |sorted| ensures sorted[n] in sorted[max..] { assert sorted[max..][n - max] == sorted[n]; }
    assert sorted[max + j] == dropped;
  }

  // ---------------------------------------------------------------- phase 3

  /** Session `j` gives up its events before session `i` does. */
  predicate OlderThan(store: Store, j: nat, i: nat)
    requires i < |store| && j < |store|
  {
    store[j].updatedAt < store[i].updatedAt || (store[j].updatedAt == store[i].updatedAt && j < i)
  }

  lemma {:induction false} OldestIsOldest(store: Store, onlyWithEvents: bool)
    ensures var k := Oldest(store, onlyWithEvents);
            forall j :: 0 <= j < |store| && (k == |store| || OlderThan(store, j, k)) ==>
              onlyWithEvents && store[j].events == []
  {
    if store != [] {
      OldestIsOldest(store[1..], onlyWithEvents);
      var k := Oldest(store, onlyWithEvents);
      forall j | 0 <= j < |store| && (k == |store| || OlderThan(store, j, k))
        ensures onlyWithEvents && store[j].events == []
      {
        if j > 0 {
          assert store[1..][j - 1] == store[j];
          var t := Oldest(store[1..], onlyWithEvents);
          if t < |store[1..]| { assert OlderThan(store[1..], j - 1, t) || k == 0 || j - 1 == t; }
        }
      }
    }
  }

  lemma {:induction false} ShedEventsShrinks(cfg: Config, store: Store)
    ensures |ShedEvents(cfg, store)| == |store|
    ensures forall i :: 0 <= i < |store| ==> Shrunk(store[i], ShedEvents(cfg, store)[i])
    decreases TotalEvents(store)
  {
    forall i | 0 <= i < |store| ensures Shrunk(store[i], store[i]) {
      assert store[i].events[0..] == store[i].events;
    }
    var k := Oldest(store, true);
    if Size(cfg, store) > cfg.maxSerializedBytes && k < |store| {
      ShiftDecreases(store, k);
      var next, r := ShiftAt(store, k), ShedEvents(cfg, store);
      ShedEventsShrinks(cfg, next);
      assert r == ShedEvents(cfg, next);
      forall i | 0 <= i < |store| ensures Shrunk(store[i], r[i]) {
        assert Shrunk(next[i], r[i]);
        if i == k { assert r[k].events == store[k].events[|store[k].events| - |r[k].events|..]; }
      }
    }
  }

  /** Events go oldest session first: if session `i` lost an event for space, then every session
      that comes before it in eviction order has none left. */
  lemma {:induction false} ShedEventsOldestFirst(cfg: Config, store: Store)
    ensures |ShedEvents(cfg, store)| == |store|
    ensures forall i, j :: 0 <= i < |store| && 0 <= j < |store| && OlderThan(store, j, i)
              && |ShedEvents(cfg, store)[i].events| < |store[i].events|
              ==> ShedEvents(cfg, store)[j].events == []
    decreases TotalEvents(store)
  {
    var k := Oldest(store, true);
    if Size(cfg, store) > cfg.maxSerializedBytes && k < |store| {
      ShiftDecreases(store, k);
      OldestIsOldest(store, true);
      var next, r := ShiftAt(store, k), ShedEvents(cfg, store);
      ShedEventsShrinks(cfg, store);
      ShedEventsOldestFirst(cfg, next);
      assert r == ShedEvents(cfg, next);
      forall i, j | 0 <= i < |store| && 0 <= j < |store| && OlderThan(store, j, i)
                    && |r[i].events| < |store[i].events|
        ensures r[j].events == []
      {
        if i == k {
          assert store[j].events == [] && Shrunk(store[j], r[j]);
        } else {
          assert OlderThan(next, j, i);
        }
      }
    }
  }

  /** `turns` evictions of phase 3, whatever the size. */
  function ShedTurns(store: Store, turns: nat): Store
    decreases turns
  {
    var i := Oldest(store, true);
    if turns == 0 || i == |store| then store else ShedTurns(ShiftAt(store, i), turns - 1)
  }

  /** Phase 3 drops no event it could have kept: it stops at the first store that fits. */
  lemma {:induction false} ShedEventsIsMinimal(cfg: Config, store: Store) returns (turns: nat)
    ensures ShedEvents(cfg, store) == ShedTurns(store, turns)
    ensures TotalEvents(ShedEvents(cfg, store)) == TotalEvents(store) - turns
    ensures forall t :: 0 <= t < turns ==> Size(cfg, ShedTurns(store, t)) > cfg.maxSerializedBytes
    ensures Size(cfg, ShedEvents(cfg, store)) <= cfg.maxSerializedBytes
            || TotalEvents(ShedEvents(cfg, store)) == 0
    decreases TotalEvents(store)
  {
    turns := 0;
    if Size(cfg, store) > cfg.maxSerializedBytes {
      var i := Oldest(store, true);
      if i == |store| {
        OldestIsOldest(store, true);
        NoEvents(store);
      } else {
        ShiftDecreases(store, i);
        var more := ShedEventsIsMinimal(cfg, ShiftAt(store, i));
        turns := more + 1;
        forall t | 0 <= t < turns ensures Size(cfg, ShedTurns(store, t)) > cfg.maxSerializedBytes {
          if t > 0 { assert ShedTurns(store, t) == ShedTurns(ShiftAt(store, i), t - 1); }
        }
      }
    }
  }

  lemma {:induction false} NoEvents(store: Store)
    requires forall j :: 0 <= j < |store| ==> store[j].events == []
    ensures TotalEvents(store) == 0
  {
    if store != [] {
      forall j | 0 <= j < |store[1..]| ensures store[1..][j].events == [] {
        assert store[1..][j] == store[j + 1];
      }
      NoEvents(store[1..]);
    }
  }

  // ---------------------------------------------------------------- phase 4

  /** One round of phase 4: the oldest session goes. */
  function DropOldest(store: Store): (r: Store)
    requires store != []
    ensures |r| == |store| - 1
  {
    OldestExists(store);
    Delete(store, store[Oldest(store, false)].sessionId)
  }

  /** The store after `turns` rounds, whatever its size. */
  function DropTurns(store: Store, turns: nat): Store
    decreases turns
  {
    if turns == 0 || store == [] then store else DropTurns(DropOldest(store), turns - 1)
  }

  lemma DropNext(store: Store, turns: nat)
    requires store != []
    ensures DropTurns(store, turns + 1) == DropTurns(DropOldest(store), turns)
  {
  }

  lemma ShedOne(cfg: Config, store: Store)
    requires Size(cfg, store) > cfg.maxSerializedBytes && store != []
    ensures ShedSessions(cfg, store) == ShedSessions(cfg, DropOldest(store))
  {
  }

  /** No smaller number of rounds is enough. */
  ghost predicate EachTooLarge(cfg: Config, store: Store, turns: nat) {
    forall t :: 0 <= t < turns ==> Size(cfg, DropTurns(store, t)) > cfg.maxSerializedBytes
  }

  lemma EachNextTooLarge(cfg: Config, store: Store, turns: nat)
    requires Size(cfg, store) > cfg.maxSerializedBytes && store != []
    requires EachTooLarge(cfg, DropOldest(store), turns)
    ensures EachTooLarge(cfg, store, turns + 1)
  {
    forall t | 0 <= t < turns + 1 ensures Size(cfg, DropTurns(store, t)) > cfg.maxSerializedBytes {
      if t > 0 { DropNext(store, t - 1); }
    }
  }

  /** `turns` rounds give the result of phase 4, which fits or is empty, and no fewer would do. */
  ghost predicate StopsAfter(cfg: Config, store: Store, turns: nat) {
    var r := ShedSessions(cfg, store);
    && r == DropTurns(store, turns) && |r| == |store| - turns
    && EachTooLarge(cfg, store, turns)
    && (Size(cfg, r) <= cfg.maxSerializedBytes || r == [])
  }

  lemma StopsNow(cfg: Config, store: Store)
    requires Size(cfg, store) <= cfg.maxSerializedBytes || store == []
    ensures StopsAfter(cfg, store, 0)
  {
  }

  lemma StopsLater(cfg: Config, store: Store, turns: nat)
    requires Size(cfg, store) > cfg.maxSerializedBytes && store != []
    requires StopsAfter(cfg, DropOldest(store), turns)
    ensures StopsAfter(cfg, store, turns + 1)
  {
    ShedOne(cfg, store);
    DropNext(store, turns);
    EachNextTooLarge(cfg, store, turns);
  }

  /** Phase 4 drops no session it could have kept: it stops at the first store that fits. */
  lemma {:induction false} ShedSessionsIsMinimal(cfg: Config, store: Store) returns (turns: nat)
    ensures StopsAfter(cfg, store, turns)
    decreases |store|
  {
    if Size(cfg, store) <= cfg.maxSerializedBytes || store == [] {
      turns := 0;
      StopsNow(cfg, store);
    } else {
      var rest := ShedSessionsIsMinimal(cfg, DropOldest(store));
      turns := rest + 1;
      StopsLater(cfg, store, rest);
    }
  }

  /** Whole sessions go oldest first, and until the store fits or is empty. */
  lemma {:induction false} ShedSessionsOldestFirst(cfg: Config, store: Store)
    requires Distinct(store)
    ensures Distinct(ShedSessions(cfg, store))
    ensures |ShedSessions(cfg, store)| <= |store|
    ensures forall s :: s in ShedSessions(cfg, store) ==> s in store
    ensures forall kept, dropped :: kept in ShedSessions(cfg, store) && dropped in store
              && dropped !in ShedSessions(cfg, store)
              ==> dropped.updatedAt <= kept.updatedAt
    ensures Size(cfg, ShedSessions(cfg, store)) <= cfg.maxSerializedBytes || ShedSessions(cfg, store) == []
    decreases |store|
  {
    if Size(cfg, store) > cfg.maxSerializedBytes && store != [] {
      OldestExists(store);
      OldestIsOldest(store, false);
      var victim := store[Oldest(store, false)];
      GetUnique(store, victim);
      DeleteFacts(store, victim.sessionId);
      var next := Delete(store, victim.sessionId);
      ShedSessionsOldestFirst(cfg, next);
      var r := ShedSessions(cfg, store);
      forall kept, dropped | kept in r && dropped in store && dropped !in r
        ensures dropped.updatedAt <= kept.updatedAt
      {
        if dropped.sessionId == victim.sessionId {
          GetUnique(store, dropped);
          var k :| 0 <= k < |store| && store[k] == kept;
          assert !OlderThan(store, k, Oldest(store, false));
        }
      }
    }
  }

  /** A session is dropped for space only once no session has any event left. */
  lemma SessionsGoLast(cfg: Config, store: Store)
    requires ShedSessions(cfg, ShedEvents(cfg, store)) != ShedEvents(cfg, store)
    ensures TotalEvents(ShedEvents(cfg, store)) == 0
  {
    var _ := ShedEventsIsMinimal(cfg, store);
  }

  // ---------------------------------------------------------------- the whole of trimLedger

  /** The empty store, `{"version":1,"sessions":{}}`, fits the smallest limit allowed. */
  predicate EmptyFits(cfg: Config) { Size(cfg, []) <= 1024 }

  predicate WithinLimits(cfg: Config, store: Store) {
    && |store| <= cfg.maxSessions
    && (forall s :: s in store ==> |s.events| <= cfg.maxEventsPerSession)
    && Size(cfg, store) <= cfg.maxSerializedBytes
  }

  /** The store after phases 1 and 2. */
  function Capped(cfg: Config, store: Store): Store {
    CapSessions(CapEvents(store, cfg.maxEventsPerSession), cfg.maxSessions)
  }

  lemma CappedTrims(cfg: Config, store: Store)
    requires Distinct(store)
    ensures TrimmedFrom(store, Capped(cfg, store))
    ensures |Capped(cfg, store)| <= cfg.maxSessions
    ensures forall s :: s in Capped(cfg, store) ==> |s.events| <= cfg.maxEventsPerSession
  {
    var a := CapEvents(store, cfg.maxEventsPerSession);
    forall i | 0 <= i < |store| ensures Shrunk(store[i], a[i]) {
      assert store[i].events[0..] == store[i].events;
    }
    PointwiseTrimmed(store, a);
    CapSessionsKeepsNewest(a, cfg.maxSessions);
    var b := Capped(cfg, store);
    SubsetTrimmed(a, b);
    TrimmedTransitive(store, a, b);
  }

  lemma ShedTrims(cfg: Config, store: Store)
    requires Distinct(store)
    ensures TrimmedFrom(store, ShedSessions(cfg, ShedEvents(cfg, store)))
  {
    var c := ShedEvents(cfg, store);
    ShedEventsShrinks(cfg, store);
    PointwiseTrimmed(store, c);
    ShedSessionsOldestFirst(cfg, c);
    SubsetTrimmed(c, ShedSessions(cfg, c));
    TrimmedTransitive(store, c, ShedSessions(cfg, c));
  }

  lemma ShedFits(cfg: Config, b: Store)
    requires Distinct(b) && |b| <= cfg.maxSessions
    requires forall s :: s in b ==> |s.events| <= cfg.maxEventsPerSession
    ensures ValidConfig(cfg) && EmptyFits(cfg) ==> WithinLimits(cfg, ShedSessions(cfg, ShedEvents(cfg, b)))
  {
    var c := ShedEvents(cfg, b);
    ShedEventsShrinks(cfg, b);
    forall s | s in c ensures |s.events| <= cfg.maxEventsPerSession {
      var i :| 0 <= i < |c| && c[i] == s;
      assert b[i] in b && Shrunk(b[i], c[i]);
    }
    ShedSessionsOldestFirst(cfg, c);
  }

  lemma TrimPostcondition(cfg: Config, store: Store)
    requires Distinct(store)
    ensures TrimmedFrom(store, Trim(cfg, store))
    ensures ValidConfig(cfg) && EmptyFits(cfg) ==> WithinLimits(cfg, Trim(cfg, store))
  {
    CappedTrims(cfg, store);
    var b := Capped(cfg, store);
    ShedTrims(cfg, b);
    TrimmedTransitive(store, b, Trim(cfg, store));
    ShedFits(cfg, b);
  }

  /** A store within the limits is left alone; in particular trimming twice is trimming once. */
  lemma TrimFixpoint(cfg: Config, store: Store)
    requires WithinLimits(cfg, store)
    ensures Trim(cfg, store) == store
  {
    assert CapEvents(store, cfg.maxEventsPerSession) == store;
  }
}
