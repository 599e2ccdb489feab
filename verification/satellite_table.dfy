/**
 The satellite table of main/receiver.c: 64 entries searched linearly, a free entry claimed when
 one is left, otherwise the entry seen longest ago is overwritten.
 Under a strictly increasing clock the table is exactly a least-recently-seen cache.
 */
module SatelliteTable {
  import opened Numbers

  const MAX_SATELLITES: nat := 64
  const LLONG_MAX: int := 0x7FFF_FFFF_FFFF_FFFF

  datatype Constellation = Gps | Glo | Gal | Bds | Qzss | Unknown
  datatype Key = Key(constellation: Constellation, svid: nat)
  datatype Sighting = Sighting(elevation: nat, azimuth: nat, cn0: nat, signalId: nat)
  datatype Entry = Entry(active: bool, lastSeen: int, key: Key, sighting: Sighting, used: bool, lastSeenMs: nat)

  /** A touch of the table: which satellite, when. */
  datatype Touch = Touch(key: Key, time: int)

  const BLANK := Entry(false, 0, Key(Gps, 0), Sighting(0, 0, 0, 0), false, 0)

  /** A freshly claimed entry: zeroed, then marked active for its satellite. */
  function Claimed(k: Key): Entry { BLANK.(active := true, key := k) }

  // ---- The three searches ------------------------------------------------------------------

  predicate Matches(e: Entry, k: Key) { e.active && e.key == k }

  /** The first matching entry, or |t|. */
  function FirstMatch(t: seq<Entry>, k: Key): (i: nat)
    ensures i <= |t| && (i < |t| ==> Matches(t[i], k))
    ensures forall j | 0 <= j < i :: !Matches(t[j], k)
  {
    if t == [] || Matches(t[0], k) then 0 else 1 + FirstMatch(t[1..], k)
  }

  /** The first inactive entry, or |t|. */
  function FirstFree(t: seq<Entry>): (i: nat)
    ensures i <= |t| && (i < |t| ==> !t[i].active)
    ensures forall j | 0 <= j < i :: t[j].active
  {
    if t == [] || !t[0].active then 0 else 1 + FirstFree(t[1..])
  }

  /** The first entry with the smallest time stamp below LLONG_MAX, or entry 0. */
  ghost predicate IsOldest(t: seq<Entry>, i: nat) {
    && i < |t|
    && (forall j | 0 <= j < |t| :: t[i].lastSeen <= t[j].lastSeen || t[j].lastSeen >= LLONG_MAX)
    && (forall j | 0 <= j < i :: t[i].lastSeen < t[j].lastSeen || t[j].lastSeen >= LLONG_MAX)
    && (t[i].lastSeen >= LLONG_MAX ==> i == 0)
  }

  /** The entry a lookup of `k` returns, by the code's own order of preference. */
  ghost predicate Chosen(t: seq<Entry>, k: Key, i: nat) {
    && i < |t|
    && if FirstMatch(t, k) < |t| then i == FirstMatch(t, k)
       else if FirstFree(t) < |t| then i == FirstFree(t)
       else IsOldest(t, i)
  }

  /** The table after a lookup that returned entry `i`: a miss overwrites it. */
  function Looked(t: seq<Entry>, k: Key, i: nat): seq<Entry>
    requires i < |t|
  {
    if FirstMatch(t, k) < |t| then t else t[i := Claimed(k)]
  }

  class Table {
    const entries: array<Entry>
    ghost var history: seq<Touch>

    ghost predicate Valid()
      reads this, entries
    {
      && entries.Length == MAX_SATELLITES
      && Compact(entries[..])
      && (Ordered(history) ==> Refines(entries[..], history))
    }

    constructor ()
      ensures Valid() && history == [] && fresh(entries)
    {
      entries := new Entry[64](_ => BLANK);
      history := [];
    }

    /** Find the entry of a satellite, claiming a free one or evicting the oldest on a miss. */
    method Find(k: Key) returns (index: nat)
      requires entries.Length == MAX_SATELLITES
      modifies entries
      ensures Chosen(old(entries[..]), k, index) && index < entries.Length
      ensures entries[..] == Looked(old(entries[..]), k, index)
    {
      var freeSlot := entries.Length;
      var i := 0;
      while i < entries.Length
        invariant 0 <= i <= entries.Length
        invariant entries[..] == old(entries[..])
        invariant forall j | 0 <= j < i :: !Matches(entries[j], k)
        invariant 0 <= freeSlot < i || freeSlot == entries.Length
        invariant freeSlot < i ==> !entries[freeSlot].active
        invariant forall j | 0 <= j < i && j < freeSlot :: entries[j].active
      {
        if entries[i].active && entries[i].key == k {
          SearchIs(entries[..], k, i, FirstFree(entries[..]));
          return i;
        }
        if !entries[i].active && freeSlot == entries.Length {
          freeSlot := i;
        }
        i := i + 1;
      }
      SearchIs(entries[..], k, entries.Length, freeSlot);
      if freeSlot != entries.Length {
        entries[freeSlot] := Claimed(k);
        return freeSlot;
      }
      index := Oldest();
      entries[index] := Claimed(k);
    }

    /** What a run of lookups means for a caller of this object. */
    lemma HoldsMostRecentlySeen(k: Key)
      requires Valid() && Ordered(history)
      ensures k in Keys(entries[..]) <==> TouchedIn(history, k) && |TouchedSince(history, k)| < MAX_SATELLITES
    {
      HoldsMostRecent(entries[..], history, k);
    }

    method Oldest() returns (index: nat)
      requires entries.Length == MAX_SATELLITES
      ensures IsOldest(entries[..], index)
    {
      var oldestSeen := LLONG_MAX;
      index := 0;
      for i := 0 to entries.Length
        invariant index < entries.Length
        invariant oldestSeen == LLONG_MAX ==> index == 0
        invariant oldestSeen < LLONG_MAX ==> index < i && entries[index].lastSeen == oldestSeen
        invariant oldestSeen <= LLONG_MAX
        invariant forall j | 0 <= j < i :: entries[j].lastSeen >= oldestSeen
        invariant forall j | 0 <= j < index :: oldestSeen < entries[j].lastSeen
      {
        if entries[i].lastSeen < oldestSeen {
          oldestSeen := entries[i].lastSeen;
          index := i;
        }
      }
    }

    /** A sighting: every field of the entry is refreshed except `used`. */
    method UpdateSatellite(k: Key, s: Sighting, now: int)
      requires Valid() && now <= LLONG_MAX
      modifies this`history, entries
      ensures Valid() && history == old(history) + [Touch(k, now)]
      ensures exists i: nat | Chosen(old(entries[..]), k, i) ::
                var was := Looked(old(entries[..]), k, i);
                entries[..] == was[i := Entry(true, now, k, s, was[i].used, 0)]
    {
      var i := Find(k);
      LookedActive(old(entries[..]), k, i);
      entries[i] := entries[i].(key := k, sighting := s, lastSeen := now, lastSeenMs := 0);
      history := history + [Touch(k, now)];
      TouchKeepsAll(old(entries[..]), entries[..], old(history), k, now, i);
    }

    /** A "used in solution" flag from UBX. */
    method SetUsed(k: Key, used: bool, now: int)
      requires Valid() && now <= LLONG_MAX
      modifies this`history, entries
      ensures Valid() && history == old(history) + [Touch(k, now)]
      ensures exists i: nat | Chosen(old(entries[..]), k, i) ::
                var was := Looked(old(entries[..]), k, i);
                entries[..] == was[i := Entry(true, now, k, was[i].sighting, used, 0)]
    {
      var i := Find(k);
      LookedActive(old(entries[..]), k, i);
      entries[i] := entries[i].(used := used, lastSeen := now, lastSeenMs := 0);
      history := history + [Touch(k, now)];
      TouchKeepsAll(old(entries[..]), entries[..], old(history), k, now, i);
    }

    /** A "used" report from a GSA sentence: the reported age is left alone. */
    method MarkUsedFromGsa(k: Key, now: int)
      requires Valid() && now <= LLONG_MAX
      modifies this`history, entries
      ensures Valid() && history == old(history) + [Touch(k, now)]
      ensures exists i: nat | Chosen(old(entries[..]), k, i) ::
                var was := Looked(old(entries[..]), k, i);
                entries[..] == was[i := Entry(true, now, k, was[i].sighting, true, was[i].lastSeenMs)]
    {
      var i := Find(k);
      LookedActive(old(entries[..]), k, i);
      entries[i] := entries[i].(used := true, lastSeen := now);
      history := history + [Touch(k, now)];
      TouchKeepsAll(old(entries[..]), entries[..], old(history), k, now, i);
    }
  }

  lemma SearchIs(t: seq<Entry>, k: Key, m: nat, f: nat)
    requires m <= |t| && (m < |t| ==> Matches(t[m], k)) && forall j | 0 <= j < m :: !Matches(t[j], k)
    requires f <= |t| && (f < |t| ==> !t[f].active) && forall j | 0 <= j < f :: t[j].active
    ensures FirstMatch(t, k) == m && FirstFree(t) == f
  {
  }

  lemma LookedActive(t: seq<Entry>, k: Key, i: nat)
    requires Chosen(t, k, i)
    ensures Matches(Looked(t, k, i)[i], k)
  {
  }

  // ---- Shape: an active prefix with distinct keys -------------------------------------------

  /** Active entries form a prefix of the table and have pairwise distinct keys. */
  ghost predicate Compact(t: seq<Entry>) {
    && (forall i | FirstFree(t) <= i < |t| :: !t[i].active)
    && (forall i, j | 0 <= i < j < FirstFree(t) :: t[i].key != t[j].key)
  }

  function Keys(t: seq<Entry>): set<Key> {
    set i | 0 <= i < FirstFree(t) :: t[i].key
  }

  /** One touch through the lookup: the chosen entry belongs to `k` and carries the time, the rest is untouched. */
  ghost predicate Touches(t: seq<Entry>, t': seq<Entry>, k: Key, now: int, i: nat) {
    && Chosen(t, k, i) && |t'| == |t|
    && Matches(t'[i], k) && t'[i].lastSeen == now
    && (forall j | 0 <= j < |t| && j != i :: t'[j] == t[j])
  }

  /** Whatever the clock does, a touch keeps the active prefix and the distinct keys. */
  lemma CompactKept(t: seq<Entry>, t': seq<Entry>, k: Key, now: int, i: nat)
    requires Compact(t) && Touches(t, t', k, now, i)
    ensures Compact(t')
    ensures FirstFree(t') == if i == FirstFree(t) then i + 1 else FirstFree(t)
  {
    var f := if i == FirstFree(t) then i + 1 else FirstFree(t);
    assert forall j | 0 <= j < f :: t'[j].active;
    assert forall j | f <= j < |t'| :: !t'[j].active;
    FreeIs(t', f);
    assert FirstMatch(t, k) < |t| || forall j | 0 <= j < FirstFree(t) :: t[j].key != k;
  }

  lemma FreeIs(t: seq<Entry>, f: nat)
    requires f <= |t| && (f < |t| ==> !t[f].active) && forall j | 0 <= j < f :: t[j].active
    ensures FirstFree(t) == f
  {
  }

  // ---- The reference: recency ---------------------------------------------------------------

  /** Time stamps strictly increase. */
  ghost predicate Ordered(h: seq<Touch>) {
    && (forall i, j | 0 <= i < j < |h| :: h[i].time < h[j].time)
    && (forall i | 0 <= i < |h| :: h[i].time <= LLONG_MAX)
  }

  /** Where `k` stands in `r`, or |r|. */
  function Index(r: seq<Key>, k: Key): (a: nat)
    ensures a <= |r| && (a < |r| ==> r[a] == k)
  {
    if r == [] || r[0] == k then 0 else 1 + Index(r[1..], k)
  }

  lemma {:induction false} IndexIsFirst(r: seq<Key>, k: Key)
    ensures forall j | 0 <= j < Index(r, k) :: r[j] != k
    ensures k in r <==> Index(r, k) < |r|
  {
    if r == [] || r[0] == k {
    } else {
      IndexIsFirst(r[1..], k);
    }
  }

  lemma InPrefix(r: seq<Key>, k: Key, n: nat)
    requires n <= |r|
    ensures k in r[..n] <==> Index(r, k) < n
  {
    IndexIsFirst(r, k);
    var a := Index(r, k);
    if a < n {
      assert r[..n][a] == k;
    } else {
      assert forall j | 0 <= j < n :: r[..n][j] == r[j];
    }
  }

  function Without(r: seq<Key>, k: Key): seq<Key> {
    var a := Index(r, k);
    if a < |r| then r[..a] + r[a + 1..] else r
  }

  /** The distinct keys touched, most recent first. */
  function Recency(h: seq<Touch>): seq<Key> {
    if h == [] then [] else [h[|h| - 1].key] + Without(Recency(h[..|h| - 1]), h[|h| - 1].key)
  }

  /** When `k` was last touched. */
  function LastTime(h: seq<Touch>, k: Key): int
  {
    if h == [] then 0 else if h[|h| - 1].key == k then h[|h| - 1].time else LastTime(h[..|h| - 1], k)
  }

  /** The keys touched after the last touch of `k`. */
  function TouchedSince(h: seq<Touch>, k: Key): set<Key> {
    if h == [] || h[|h| - 1].key == k then {} else TouchedSince(h[..|h| - 1], k) + {h[|h| - 1].key}
  }

  predicate Distinct(r: seq<Key>) {
    forall i, j | 0 <= i < j < |r| :: r[i] != r[j]
  }

  lemma WithoutFacts(r: seq<Key>, k: Key)
    requires Distinct(r)
    ensures Distinct(Without(r, k)) && k !in Without(r, k)
    ensures forall x :: x in Without(r, k) <==> x in r && x != k
  {
    var a, w := Index(r, k), Without(r, k);
    IndexIsFirst(r, k);
    forall x
      ensures x in w <==> x in r && x != k
    {
      if x in r && x != k {
        IndexIsFirst(r, x);
        var b := Index(r, x);
        assert w[if b < a then b else b - 1] == x;
      }
      if x in w {
        IndexIsFirst(w, x);
        var b := Index(w, x);
        assert r[if b < a then b else b + 1] == x;
      }
    }
  }

  lemma SkipAt(r: seq<Key>, c: nat, a: nat)
    requires c < |r| && a + 1 < |r|
    ensures (r[..c] + r[c + 1..])[a] == r[if a < c then a else a + 1]
  {
  }

  lemma WithoutAt(r: seq<Key>, k: Key, a: nat)
    requires Distinct(r) && a < |Without(r, k)|
    ensures var b := if a < Index(r, k) then a else a + 1;
            b < |r| && Without(r, k)[a] == r[b] != k
  {
    var c := Index(r, k);
    if c < |r| {
      SkipAt(r, c, a);
      assert r[c] == k;
    } else {
      IndexIsFirst(r, k);
    }
  }

  lemma {:induction false} RecencyDistinct(h: seq<Touch>)
    ensures Distinct(Recency(h))
  {
    if h == [] {
    } else {
      RecencyDistinct(h[..|h| - 1]);
      WithoutFacts(Recency(h[..|h| - 1]), h[|h| - 1].key);
    }
  }

  ghost predicate TouchedIn(h: seq<Touch>, k: Key) {
    exists i :: 0 <= i < |h| && h[i].key == k
  }

  lemma TouchedFront(h: seq<Touch>, k: Key)
    requires h != []
    ensures TouchedIn(h, k) <==> TouchedIn(h[..|h| - 1], k) || h[|h| - 1].key == k
  {
    var front := h[..|h| - 1];
    if i :| 0 <= i < |front| && front[i].key == k {
      assert h[i].key == k;
    }
    if i :| 0 <= i < |h| && h[i].key == k {
      assert i < |front| ==> front[i].key == k;
    }
  }

  lemma {:induction false} RecencyMembers(h: seq<Touch>, k: Key)
    ensures k in Recency(h) <==> TouchedIn(h, k)
  {
    if h == [] {
    } else {
      var front, last := h[..|h| - 1], h[|h| - 1];
      RecencyMembers(front, k);
      RecencyDistinct(front);
      WithoutFacts(Recency(front), last.key);
      TouchedFront(h, k);
    }
  }

  /** Along `r` the times `f` strictly fall. */
  ghost predicate Falls(r: seq<Key>, f: map<Key, int>) {
    && (forall k | k in r :: k in f)
    && forall a, b | 0 <= a < b < |r| :: f[r[a]] > f[r[b]]
  }

  ghost predicate Under(r: seq<Key>, f: map<Key, int>, bound: int) {
    forall k | k in r :: k in f && f[k] <= bound
  }

  lemma WithoutFalls(r: seq<Key>, k: Key, f: map<Key, int>)
    requires Distinct(r) && Falls(r, f)
    ensures Falls(Without(r, k), f)
  {
    WithoutFacts(r, k);
    forall a, b | 0 <= a < b < |Without(r, k)|
      ensures f[Without(r, k)[a]] > f[Without(r, k)[b]]
    {
      WithoutAt(r, k, a);
      WithoutAt(r, k, b);
    }
  }

  /** The times of other keys survive a new time for `k`. */
  lemma OthersKeepTime(w: seq<Key>, k: Key, f: map<Key, int>, time: int, a: nat)
    requires k !in w && a < |w| && w[a] in f
    ensures w[a] != k && f[k := time][w[a]] == f[w[a]]
  {
    assert w[a] in w;
  }

  /** Moving a key to the front with a new greatest time. */
  lemma MovedFalls(w: seq<Key>, k: Key, f: map<Key, int>, time: int, bound: int)
    requires k !in w && Falls(w, f) && Under(w, f, bound) && bound < time
    ensures Falls([k] + w, f[k := time]) && Under([k] + w, f[k := time], time)
  {
    var r, g := [k] + w, f[k := time];
    forall a, b | 0 <= a < b < |r|
      ensures g[r[a]] > g[r[b]]
    {
      OthersKeepTime(w, k, f, time, b - 1);
      assert r[b] == w[b - 1] && w[b - 1] in w;
      if a > 0 {
        OthersKeepTime(w, k, f, time, a - 1);
        assert r[a] == w[a - 1];
      }
    }
  }

  /** The last-touch times of all keys touched. */
  function Times(h: seq<Touch>): map<Key, int> {
    if h == [] then map[] else Times(h[..|h| - 1])[h[|h| - 1].key := h[|h| - 1].time]
  }

  lemma {:induction false} TimesAreLast(h: seq<Touch>, k: Key)
    requires k in Times(h)
    ensures Times(h)[k] == LastTime(h, k)
  {
    if h[|h| - 1].key == k {
    } else {
      TimesAreLast(h[..|h| - 1], k);
    }
  }

  /** Under a strict clock the last-touch times strictly fall along the recency list. */
  lemma {:induction false} RecencyOrder(h: seq<Touch>, bound: int)
    requires Ordered(h) && (h != [] ==> h[|h| - 1].time <= bound)
    ensures Falls(Recency(h), Times(h)) && Under(Recency(h), Times(h), bound)
  {
    if h == [] {
    } else {
      var front, last := h[..|h| - 1], h[|h| - 1];
      RecencyOrder(front, last.time - 1);
      RecencyDistinct(front);
      var r := Recency(front);
      WithoutFacts(r, last.key);
      WithoutFalls(r, last.key, Times(front));
      MovedFalls(Without(r, last.key), last.key, Times(front), last.time, last.time - 1);
    }
  }

  lemma RecencyBound(h: seq<Touch>, a: nat, bound: int)
    requires Ordered(h) && a < |Recency(h)| && h[|h| - 1].time <= bound
    ensures LastTime(h, Recency(h)[a]) <= bound
  {
    RecencyOrder(h, bound);
    TimesAreLast(h, Recency(h)[a]);
  }

  lemma RecencyFalls(h: seq<Touch>, a: nat, b: nat)
    requires Ordered(h) && a < b < |Recency(h)|
    ensures LastTime(h, Recency(h)[a]) > LastTime(h, Recency(h)[b])
  {
    RecencyOrder(h, h[|h| - 1].time);
    TimesAreLast(h, Recency(h)[a]);
    TimesAreLast(h, Recency(h)[b]);
  }

  function ToSet(r: seq<Key>): set<Key> { set k | k in r }

  /** A prefix in front of `k` stays. */
  lemma WithoutShort(r: seq<Key>, k: Key, m: nat)
    requires m <= |Without(r, k)| && m <= Index(r, k)
    ensures Without(r, k)[..m] == r[..m]
  {
  }

  /** A prefix that skips position `c`, and the same with it. */
  lemma SkipPrefix(r: seq<Key>, c: nat, m: nat)
    requires c < m < |r|
    ensures (r[..c] + r[c + 1..])[..m] == r[..c] + r[c + 1..m + 1]
    ensures r[..m + 1] == r[..c] + [r[c]] + r[c + 1..m + 1]
  {
  }

  /** A longer prefix, with `k`, is one key longer in the list itself. */
  lemma WithoutLong(r: seq<Key>, k: Key, m: nat)
    requires m <= |Without(r, k)| && m > Index(r, k)
    ensures ToSet(Without(r, k)[..m]) + {k} == ToSet(r[..m + 1]) && k in r[..m + 1]
  {
    var c := Index(r, k);
    SkipPrefix(r, c, m);
    MiddleSet(r[..c], k, r[c + 1..m + 1]);
  }

  lemma MiddleSet(a: seq<Key>, k: Key, b: seq<Key>)
    ensures ToSet(a + [k] + b) == ToSet(a + b) + {k} && k in a + [k] + b
  {
    assert (a + [k] + b)[|a|] == k;
  }

  lemma MovedAt(r: seq<Key>, k: Key, a: nat)
    requires Distinct(r) && 0 < a <= |Without(r, k)|
    ensures var b := if a - 1 < Index(r, k) then a - 1 else a; b < |r| && ([k] + Without(r, k))[a] == r[b] != k
  {
    WithoutAt(r, k, a - 1);
    assert ([k] + Without(r, k))[a] == Without(r, k)[a - 1];
  }

  lemma MovedSets(r: seq<Key>, k: Key, a: nat)
    requires 0 < a <= |Without(r, k)| && a <= |r|
    ensures ToSet(([k] + Without(r, k))[..a]) == ToSet(r[..if a - 1 < Index(r, k) then a - 1 else a]) + {k}
  {
    MovedSet(Without(r, k), k, a);
    MovedRest(r, k, a - 1);
  }

  /** The set in front of position `a` of a list with `k` moved to the front. */
  lemma MovedPrefix(r: seq<Key>, k: Key, a: nat)
    requires Distinct(r) && 0 < a <= |Without(r, k)|
    ensures var b := if a - 1 < Index(r, k) then a - 1 else a;
            && b < |r| && ([k] + Without(r, k))[a] == r[b] && r[b] != k
            && ToSet(([k] + Without(r, k))[..a]) == ToSet(r[..b]) + {k}
  {
    MovedAt(r, k, a);
    MovedSets(r, k, a);
  }

  /** The prefix that ends just in front of `k`. */
  lemma MovedUpTo(r: seq<Key>, k: Key, m: nat)
    requires m == Index(r, k) < |r|
    ensures ToSet(r[..m]) + {k} == ToSet(r[..m + 1]) + {k}
  {
    assert r[..m + 1] == r[..m] + [k];
    SnocSet(r[..m], k);
  }

  lemma MovedRest(r: seq<Key>, k: Key, m: nat)
    requires m < |Without(r, k)| && m < |r|
    ensures ToSet(Without(r, k)[..m]) + {k} == ToSet(r[..if m < Index(r, k) then m else m + 1]) + {k}
  {
    if m < Index(r, k) {
      WithoutShort(r, k, m);
    } else if m == Index(r, k) {
      WithoutShort(r, k, m);
      MovedUpTo(r, k, m);
    } else {
      WithoutLong(r, k, m);
    }
  }

  lemma MovedSet(w: seq<Key>, k: Key, a: nat)
    requires 0 < a <= |w|
    ensures ToSet(([k] + w)[..a]) == ToSet(w[..a - 1]) + {k}
  {
    assert ([k] + w)[..a] == [k] + w[..a - 1];
  }

  lemma SnocSet(r: seq<Key>, k: Key)
    ensures ToSet(r + [k]) == ToSet(r) + {k}
  {
  }

  /** A key's rank in the recency list counts the distinct keys touched since. */
  lemma {:induction false} RankIsTouchedSince(h: seq<Touch>, a: nat)
    requires a < |Recency(h)|
    ensures TouchedSince(h, Recency(h)[a]) == ToSet(Recency(h)[..a])
    decreases |h|
  {
    if a <= 0 {
    } else {
      var front, k := h[..|h| - 1], h[|h| - 1].key;
      var r := Recency(front);
      RecencyDistinct(front);
      MovedPrefix(r, k, a);
      RankIsTouchedSince(front, if a - 1 < Index(r, k) then a - 1 else a);
    }
  }

  lemma {:induction false} DistinctSize(r: seq<Key>)
    requires Distinct(r)
    ensures |ToSet(r)| == |r|
  {
    if r == [] {
    } else {
      DistinctSize(r[1..]);
      assert ToSet(r) == {r[0]} + ToSet(r[1..]);
      assert r[0] !in r[1..];
    }
  }

  // ---- Refinement ------------------------------------------------------------------------------

  /** The table holds the most recently touched distinct keys, each with the time of its last touch. */
  ghost predicate Refines(t: seq<Entry>, h: seq<Touch>) {
    var n := Min(|t|, |Recency(h)|);
    && FirstFree(t) == n
    && Keys(t) == Top(Recency(h), |t|)
    && forall i | 0 <= i < n :: t[i].lastSeen == LastTime(h, t[i].key)
  }

  /** Where an entry's key stands in the recency list. */
  lemma KeyRank(t: seq<Entry>, h: seq<Touch>, i: nat) returns (a: nat)
    requires Refines(t, h) && i < FirstFree(t)
    ensures a < FirstFree(t) <= |Recency(h)| && Recency(h)[a] == t[i].key && t[i].lastSeen == LastTime(h, Recency(h)[a])
  {
    var r, n := Recency(h), FirstFree(t);
    assert t[i].key in Keys(t);
    assert t[i].key in r[..n];
    a :| 0 <= a < n && r[..n][a] == t[i].key;
  }

  /** The entry that holds the key at a rank. */
  lemma RankHolder(t: seq<Entry>, h: seq<Touch>, a: nat) returns (j: nat)
    requires Refines(t, h) && a < FirstFree(t)
    ensures j < FirstFree(t) <= |t| && a < |Recency(h)| && t[j].key == Recency(h)[a]
    ensures t[j].lastSeen == LastTime(h, Recency(h)[a])
  {
    var r, n := Recency(h), FirstFree(t);
    assert r[..n][a] == r[a];
    assert r[a] in Keys(t);
    j :| 0 <= j < n && t[j].key == r[a];
  }

  /** The oldest entry has the greatest rank `n` held. */
  lemma OldestRank(t: seq<Entry>, h: seq<Touch>, i: nat, a: nat, j: nat, n: nat)
    requires Ordered(h) && 0 < n < |Recency(h)| && a <= n && j < |t| && IsOldest(t, i)
    requires t[i].lastSeen == LastTime(h, Recency(h)[a]) && t[j].lastSeen == LastTime(h, Recency(h)[n])
    ensures a == n
  {
    RecencyFalls(h, 0, n);
    RecencyBound(h, 0, LLONG_MAX);
    if a < n {
      RecencyFalls(h, a, n);
    }
  }

  /** On a full table and a strict clock the oldest entry is the last of the recency prefix. */
  lemma OldestIsLeastRecent(t: seq<Entry>, h: seq<Touch>, i: nat)
    requires Ordered(h) && Refines(t, h) && |t| >= 2 && FirstFree(t) == |t| && IsOldest(t, i)
    ensures t[i].key == Recency(h)[|t| - 1]
  {
    var j := RankHolder(t, h, |t| - 1);
    var a := KeyRank(t, h, i);
    OldestRank(t, h, i, a, j, |t| - 1);
  }

  /** The first `n` keys of a recency list, as a set. */
  function Top(r: seq<Key>, n: nat): set<Key> { ToSet(r[..Min(n, |r|)]) }

  /** The top of a list with `k` put in front. */
  lemma TopWithFront(w: seq<Key>, k: Key, n: nat)
    requires n >= 1
    ensures var m := Min(n, |w| + 1); Top([k] + w, n) == ToSet(w[..m - 1]) + {k}
  {
    var m := Min(n, |w| + 1);
    assert ([k] + w)[..m] == [k] + w[..m - 1];
  }

  lemma WithoutShorter(r: seq<Key>, k: Key)
    requires Index(r, k) < |r|
    ensures |Without(r, k)| == |r| - 1
  {
  }

  /** A prefix that holds `k`, as a set. */
  lemma HitSet(r: seq<Key>, k: Key, m: nat)
    requires Index(r, k) < m <= |r|
    ensures m - 1 <= |Without(r, k)| && ToSet(Without(r, k)[..m - 1]) + {k} == ToSet(r[..m])
  {
    WithoutShorter(r, k);
    if m - 1 == Index(r, k) {
      HitLast(r, k, m);
    } else {
      WithoutLong(r, k, m - 1);
    }
  }

  lemma HitLast(r: seq<Key>, k: Key, m: nat)
    requires m - 1 == Index(r, k) < m <= |r| && m - 1 <= |Without(r, k)|
    ensures ToSet(Without(r, k)[..m - 1]) + {k} == ToSet(r[..m])
  {
    WithoutShort(r, k, m - 1);
    IndexIsFirst(r, k);
    assert r[..m] == r[..m - 1] + [k];
    SnocSet(r[..m - 1], k);
  }

  /** A key in the top moves within it. */
  lemma MoveHit(r: seq<Key>, k: Key, n: nat)
    requires n >= 1 && Index(r, k) < Min(n, |r|)
    ensures var r' := [k] + Without(r, k); Top(r', n) == Top(r, n) && |r'| == |r|
  {
    WithoutShorter(r, k);
    TopWithFront(Without(r, k), k, n);
    HitSet(r, k, Min(n, |r|));
  }

  lemma DropLast(r: seq<Key>, n: nat)
    requires Distinct(r) && 1 <= n <= |r|
    ensures ToSet(r[..n]) - {r[n - 1]} == ToSet(r[..n - 1])
  {
    assert r[..n] == r[..n - 1] + [r[n - 1]];
    SnocSet(r[..n - 1], r[n - 1]);
    assert forall j | 0 <= j < n - 1 :: r[..n - 1][j] == r[j] != r[n - 1];
  }

  /** A key outside pushes the last one of the top out, if the top is full. */
  lemma MoveMiss(r: seq<Key>, k: Key, n: nat)
    requires Distinct(r) && n >= 1 && Index(r, k) >= Min(n, |r|)
    ensures var r' := [k] + Without(r, k);
            && (|r| < n ==> Top(r', n) == Top(r, n) + {k} && |r'| == |r| + 1)
            && (|r| >= n ==> Top(r', n) == Top(r, n) - {r[n - 1]} + {k} && |r'| >= n)
  {
    var w := Without(r, k);
    TopWithFront(w, k, n);
    if |r| < n {
      assert w == r && r[..|r|] == r;
    } else {
      WithoutShort(r, k, n - 1);
      DropLast(r, n);
    }
  }

  /** Moving a key to the front: a hit keeps the top `n`, a miss adds the key and drops the n-th. */
  lemma MoveToFront(r: seq<Key>, k: Key, n: nat)
    requires Distinct(r) && n >= 1
    ensures var r' := [k] + Without(r, k);
            && (k in Top(r, n) ==> Top(r', n) == Top(r, n) && Min(n, |r'|) == Min(n, |r|))
            && (k !in Top(r, n) && |r| < n ==> Top(r', n) == Top(r, n) + {k} && |r'| == |r| + 1)
            && (k !in Top(r, n) && |r| >= n ==> Top(r', n) == Top(r, n) - {r[n - 1]} + {k} && |r'| >= n)
  {
    InPrefix(r, k, Min(n, |r|));
    if Index(r, k) < Min(n, |r|) {
      MoveHit(r, k, n);
    } else {
      MoveMiss(r, k, n);
    }
  }

  lemma PrefixMoves(h: seq<Touch>, k: Key, now: int, n: nat)
    requires n >= 1
    ensures var r, r' := Recency(h), Recency(h + [Touch(k, now)]);
            && (k in Top(r, n) ==> Top(r', n) == Top(r, n) && Min(n, |r'|) == Min(n, |r|))
            && (k !in Top(r, n) && |r| < n ==> Top(r', n) == Top(r, n) + {k} && |r'| == |r| + 1)
            && (k !in Top(r, n) && |r| >= n ==> Top(r', n) == Top(r, n) - {r[n - 1]} + {k} && |r'| >= n)
  {
    var h' := h + [Touch(k, now)];
    assert h'[..|h'| - 1] == h;
    RecencyDistinct(h);
    MoveToFront(Recency(h), k, n);
  }

  /** Which of the three kinds of touch it is, seen from the keys held. */
  lemma TouchKinds(t: seq<Entry>, t': seq<Entry>, h: seq<Touch>, k: Key, now: int, i: nat)
    requires Compact(t) && Touches(t, t', k, now, i) && |t| >= 2 && Ordered(h) && Refines(t, h)
    ensures k in Keys(t) <==> i < FirstFree(t) && t[i].key == k
    ensures k !in Keys(t) && FirstFree(t) < |t| ==> i == FirstFree(t)
    ensures k !in Keys(t) && FirstFree(t) == |t| ==> t[i].key == Recency(h)[|t| - 1]
  {
    if FirstMatch(t, k) < |t| {
      assert k == t[i].key && k in Keys(t);
    } else {
      assert k !in Keys(t);
      if FirstFree(t) == |t| {
        OldestIsLeastRecent(t, h, i);
      }
    }
  }

  lemma KeysAfter(t: seq<Entry>, t': seq<Entry>, k: Key, now: int, i: nat)
    requires Compact(t) && Touches(t, t', k, now, i) && |t| >= 2
    ensures |t'| == |t| && i <= FirstFree(t)
    ensures FirstFree(t') == if i == FirstFree(t) then i + 1 else FirstFree(t)
    ensures Keys(t') == (if i == FirstFree(t) then Keys(t) else Keys(t) - {t[i].key}) + {k}
  {
    CompactKept(t, t', k, now, i);
    KeysUpdated(t, t', k, i);
  }

  /** What a touch makes of the keys: a hit keeps them, a free entry adds one, a full table swaps one. */
  lemma KeysChange(t: seq<Entry>, t': seq<Entry>, h: seq<Touch>, k: Key, now: int, i: nat)
    requires Compact(t) && Touches(t, t', k, now, i) && |t| >= 2 && Ordered(h) && Refines(t, h)
    ensures |t'| == |t|
    ensures k in Keys(t) ==> Keys(t') == Keys(t) && FirstFree(t') == FirstFree(t)
    ensures k !in Keys(t) && FirstFree(t) < |t| ==> Keys(t') == Keys(t) + {k} && FirstFree(t') == FirstFree(t) + 1
    ensures k !in Keys(t) && FirstFree(t) == |t| ==>
              |Recency(h)| >= |t| && Keys(t') == Keys(t) - {Recency(h)[|t| - 1]} + {k} && FirstFree(t') == |t|
  {
    KeysAfter(t, t', k, now, i);
    TouchKinds(t, t', h, k, now, i);
  }

  /** A touch moves the set of keys held as it moves the top of the recency list. */
  lemma KeysMove(t: seq<Entry>, t': seq<Entry>, h: seq<Touch>, k: Key, now: int, i: nat)
    requires Compact(t) && Touches(t, t', k, now, i) && |t| >= 2 && Ordered(h) && Refines(t, h)
    ensures FirstFree(t') == Min(|t'|, |Recency(h + [Touch(k, now)])|)
    ensures Keys(t') == Top(Recency(h + [Touch(k, now)]), |t'|)
  {
    KeysChange(t, t', h, k, now, i);
    PrefixMoves(h, k, now, |t|);
    TopOfRefined(t, h);
  }

  lemma TopOfRefined(t: seq<Entry>, h: seq<Touch>)
    requires Refines(t, h)
    ensures Keys(t) == Top(Recency(h), |t|) && FirstFree(t) == Min(|t|, |Recency(h)|)
  {
  }

  /** Under a strict clock one touch moves the table exactly as it moves the recency list. */
  lemma TouchRefines(t: seq<Entry>, t': seq<Entry>, h: seq<Touch>, k: Key, now: int, i: nat)
    requires Compact(t) && Touches(t, t', k, now, i) && |t| >= 2
    requires Ordered(h + [Touch(k, now)]) && Refines(t, h)
    ensures Refines(t', h + [Touch(k, now)])
  {
    var h' := h + [Touch(k, now)];
    assert h'[..|h'| - 1] == h;
    assert Ordered(h) by { assert forall a | 0 <= a < |h| :: h[a] == h'[a]; }
    CompactKept(t, t', k, now, i);
    KeysMove(t, t', h, k, now, i);
    forall j | 0 <= j < FirstFree(t')
      ensures t'[j].lastSeen == LastTime(h', t'[j].key)
    {
      if j != i {
        assert j < FirstFree(t) && t'[j] == t[j];
        assert t'[j].key != k;
      }
    }
  }

  lemma KeysUpdated(t: seq<Entry>, t': seq<Entry>, k: Key, i: nat)
    requires i < |t| == |t'| && Compact(t) && Compact(t')
    requires Matches(t'[i], k) && forall j | 0 <= j < |t| && j != i :: t'[j] == t[j]
    requires i <= FirstFree(t) && FirstFree(t') == if i == FirstFree(t) then i + 1 else FirstFree(t)
    ensures Keys(t') == (if i == FirstFree(t) then Keys(t) else Keys(t) - {t[i].key}) + {k}
  {
    var rhs := (if i == FirstFree(t) then Keys(t) else Keys(t) - {t[i].key}) + {k};
    forall x
      ensures x in Keys(t') <==> x in rhs
    {
      if x in Keys(t') {
        var j :| 0 <= j < FirstFree(t') && t'[j].key == x;
        if j != i {
          assert t[j].key == x;
        }
      }
      if x in rhs {
        if x == k {
          assert t'[i].key == x;
        } else {
          var j :| 0 <= j < FirstFree(t) && t[j].key == x;
          assert t'[j].key == x;
        }
      }
    }
  }

  lemma TouchKeepsAll(t: seq<Entry>, t': seq<Entry>, h: seq<Touch>, k: Key, now: int, i: nat)
    requires Compact(t) && Touches(t, t', k, now, i) && |t| >= 2
    requires Ordered(h) ==> Refines(t, h)
    ensures Compact(t')
    ensures Ordered(h + [Touch(k, now)]) ==> Refines(t', h + [Touch(k, now)])
  {
    CompactKept(t, t', k, now, i);
    var h' := h + [Touch(k, now)];
    if Ordered(h') {
      assert forall a | 0 <= a < |h| :: h[a] == h'[a];
      TouchRefines(t, t', h, k, now, i);
    }
  }

  /**
   The cache property, in terms of the touches alone: a satellite is in the table exactly when it
   was touched and fewer distinct others than the table has entries were touched since.
   */
  lemma HoldsMostRecent(t: seq<Entry>, h: seq<Touch>, k: Key)
    requires Refines(t, h) && |t| > 0
    ensures k in Keys(t) <==> TouchedIn(h, k) && |TouchedSince(h, k)| < |t|
  {
    HeldIffRanked(t, h, k);
    RecencyMembers(h, k);
    IndexIsFirst(Recency(h), k);
    if Index(Recency(h), k) < |Recency(h)| {
      IndexIsTouchedSince(h, k);
    }
  }

  /** The table holds the keys among the first of the recency list. */
  lemma HeldIffRanked(t: seq<Entry>, h: seq<Touch>, k: Key)
    requires Refines(t, h)
    ensures k in Keys(t) <==> Index(Recency(h), k) < Min(|t|, |Recency(h)|)
  {
    InPrefix(Recency(h), k, Min(|t|, |Recency(h)|));
  }

  /** Where a key stands in the recency list is how many others were touched since. */
  lemma IndexIsTouchedSince(h: seq<Touch>, k: Key)
    requires Index(Recency(h), k) < |Recency(h)|
    ensures |TouchedSince(h, k)| == Index(Recency(h), k)
  {
    var r, a := Recency(h), Index(Recency(h), k);
    RecencyDistinct(h);
    IndexIsFirst(r, k);
    RankIsTouchedSince(h, a);
    DistinctSize(r[..a]);
  }

  /** A run of the table: `ts[n]` is the table after the first n touches, from an empty table. */
  ghost predicate Run(ts: seq<seq<Entry>>, h: seq<Touch>, chosen: seq<nat>) {
    && |ts| == |h| + 1 && |chosen| == |h|
    && |ts[0]| >= 2 && (forall i | 0 <= i < |ts[0]| :: !ts[0][i].active)
    && forall n | 0 <= n < |h| :: Touches(ts[n], ts[n + 1], h[n].key, h[n].time, chosen[n])
  }

  lemma RunPrefix(ts: seq<seq<Entry>>, h: seq<Touch>, chosen: seq<nat>)
    requires Run(ts, h, chosen) && h != []
    ensures Run(ts[..|h|], h[..|h| - 1], chosen[..|h| - 1])
  {
    var n := |h|;
    forall m | 0 <= m < n - 1
      ensures Touches(ts[..n][m], ts[..n][m + 1], h[..n - 1][m].key, h[..n - 1][m].time, chosen[..n - 1][m])
    {
      assert Touches(ts[m], ts[m + 1], h[m].key, h[m].time, chosen[m]);
    }
  }

  lemma {:induction false} RunRefines(ts: seq<seq<Entry>>, h: seq<Touch>, chosen: seq<nat>)
    requires Run(ts, h, chosen)
    ensures |ts[|h|]| == |ts[0]| && Compact(ts[|h|])
    ensures Ordered(h) ==> Refines(ts[|h|], h)
    decreases |h|
  {
    var n := |h|;
    if n == 0 {
      FreeIs(ts[0], 0);
    } else {
      var front, last := h[..n - 1], h[n - 1];
      RunPrefix(ts, h, chosen);
      RunRefines(ts[..n], front, chosen[..n - 1]);
      assert h == front + [Touch(last.key, last.time)];
      assert Touches(ts[n - 1], ts[n], h[n - 1].key, h[n - 1].time, chosen[n - 1]);
      TouchKeepsAll(ts[n - 1], ts[n], front, last.key, last.time, chosen[n - 1]);
    }
  }

  /**
   After any run the active entries are a prefix with distinct keys; if the clock strictly
   increased, the table holds exactly the most recently touched distinct satellites.
   */
  lemma LeastRecentlySeenCache(ts: seq<seq<Entry>>, h: seq<Touch>, chosen: seq<nat>, k: Key)
    requires Run(ts, h, chosen)
    ensures Compact(ts[|h|])
    ensures Ordered(h) ==>
              (k in Keys(ts[|h|]) <==> TouchedIn(h, k) && |TouchedSince(h, k)| < |ts[0]|)
  {
    RunRefines(ts, h, chosen);
    if Ordered(h) {
      HoldsMostRecent(ts[|h|], h, k);
    }
  }
}
