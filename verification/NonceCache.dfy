/** Replay protection: the bounded cache of stream hello nonces and the
    time-based cache of HTTP nonces (internal/transport/ssh_stream.go,
    internal/transport/nonce.go). Times are integers in nanoseconds. */
module NonceCaches {

  const SECOND: int := 1_000_000_000
  const SKEW: int := 120 * SECOND
  const RETENTION: int := 2 * SKEW
  const BUCKET_CAP: nat := 256
  const PROCESS_CAP: nat := 8192

  /** A hello's place in the cache: the bucket is the sender and the purpose. */
  datatype Key = Key(bucket: string, nonce: string)

  datatype Acceptance = Acceptance(key: Key, time: int)

  type Seen = map<Key, int>

  // ---- what the cache holds ----

  function Unexpired(seen: Seen, now: int): Seen {
    map k | k in seen && !(seen[k] < now - RETENTION) :: seen[k]
  }

  function InBucket(seen: Seen, bucket: string): set<Key> {
    set k | k in seen && k.bucket == bucket
  }

  /** An entry that no other in the same pool is older than. */
  predicate Oldest(seen: Seen, pool: set<Key>, k: Key) {
    k in pool && pool <= seen.Keys && forall j :: j in pool ==> seen[k] <= seen[j]
  }

  // ---- the log of acceptances ----

  /** Acceptances at or after a time, in a bucket or anywhere. */
  function Since(log: seq<Acceptance>, time: int): set<nat> {
    set i: nat | i < |log| && log[i].time >= time
  }

  function SinceInBucket(log: seq<Acceptance>, time: int, bucket: string): set<nat> {
    set i: nat | i < |log| && log[i].time >= time && log[i].key.bucket == bucket
  }

  /** So many hellos were accepted at or after an acceptance that it may have
      been evicted early. */
  predicate Flooded(log: seq<Acceptance>, a: Acceptance) {
    |SinceInBucket(log, a.time, a.key.bucket)| >= BUCKET_CAP || |Since(log, a.time)| >= PROCESS_CAP
  }

  /** Every entry was accepted at its time. */
  predicate Grounded(seen: Seen, log: seq<Acceptance>) {
    forall k :: k in seen ==> Acceptance(k, seen[k]) in log
  }

  /** An acceptance is remembered, expired, or was flooded out. */
  predicate Accounted(seen: Seen, log: seq<Acceptance>, now: int, a: Acceptance) {
    || (a.key in seen && seen[a.key] >= a.time)
    || a.time < now - RETENTION
    || Flooded(log, a)
  }

  /** No hello was accepted twice within the retention, unless it was flooded out
      in between. */
  predicate Once(log: seq<Acceptance>) {
    forall i, j :: 0 <= i < j < |log| && log[i].key == log[j].key ==>
      log[j].time > log[i].time + RETENTION || Flooded(log[..j], log[i])
  }

  ghost predicate Sound(seen: Seen, log: seq<Acceptance>, now: int) {
    && Grounded(seen, log)
    && Once(log)
    && (forall i :: 0 <= i < |log| ==> log[i].time <= now)
    && (forall i :: 0 <= i < |log| ==> Accounted(seen, log, now, log[i]))
  }

  // ---- counting ----

  /** No more keys than places in the log. */
  lemma {:induction false} KeysCounted(log: seq<Acceptance>, indices: set<nat>)
    requires forall i :: i in indices ==> i < |log|
    ensures |set i | i in indices :: log[i].key| <= |indices|
  {
    var keys := set i | i in indices :: log[i].key;
    if indices != {} {
      var a :| a in indices;
      var rest := indices - {a};
      KeysCounted(log, rest);
      assert keys == (set i | i in rest :: log[i].key) + {log[a].key};
    }
  }

  lemma SubsetSize<A>(a: set<A>, b: set<A>)
    requires a <= b
    ensures |a| <= |b|
    decreases |a|
  {
    if a != {} {
      var x :| x in a;
      SubsetSize(a - {x}, b - {x});
    }
  }

  /** Entries no older than a time come from as many acceptances since then. */
  lemma EntriesCounted(seen: Seen, log: seq<Acceptance>, pool: set<Key>, time: int)
    requires Grounded(seen, log) && pool <= seen.Keys && forall k :: k in pool ==> seen[k] >= time
    ensures |pool| <= |Since(log, time)|
    ensures forall bucket :: (forall k :: k in pool ==> k.bucket == bucket) ==> |pool| <= |SinceInBucket(log, time, bucket)|
  {
    CountedBy(seen, log, pool, Since(log, time));
    forall bucket | forall k :: k in pool ==> k.bucket == bucket
      ensures |pool| <= |SinceInBucket(log, time, bucket)|
    {
      CountedBy(seen, log, pool, SinceInBucket(log, time, bucket));
    }
  }

  lemma CountedBy(seen: Seen, log: seq<Acceptance>, pool: set<Key>, indices: set<nat>)
    requires Grounded(seen, log) && pool <= seen.Keys
    requires forall i :: i in indices ==> i < |log|
    requires forall k, i: nat :: k in pool && i < |log| && log[i] == Acceptance(k, seen[k]) ==> i in indices
    ensures |pool| <= |indices|
  {
    var keys := set i | i in indices :: log[i].key;
    forall k | k in pool
      ensures k in keys
    {
      var i :| 0 <= i < |log| && log[i] == Acceptance(k, seen[k]);
      assert i in indices && log[i].key == k;
    }
    SubsetSize(pool, keys);
    KeysCounted(log, indices);
  }

  /** More acceptances only add to the flood. */
  lemma FloodGrows(log: seq<Acceptance>, a: Acceptance, next: Acceptance)
    requires Flooded(log, a)
    ensures Flooded(log + [next], a)
  {
    SubsetSize(Since(log, a.time), Since(log + [next], a.time));
    SubsetSize(SinceInBucket(log, a.time, a.key.bucket), SinceInBucket(log + [next], a.time, a.key.bucket));
  }

  // ---- what pruning, evicting and inserting keep ----

  lemma PruneIsSound(seen: Seen, log: seq<Acceptance>, last: int, now: int)
    requires Sound(seen, log, last) && last <= now
    ensures Sound(Unexpired(seen, now), log, now)
  {
    forall i | 0 <= i < |log|
      ensures Accounted(Unexpired(seen, now), log, now, log[i])
    {
      assert Accounted(seen, log, last, log[i]);
    }
  }

  lemma EvictIsSound(seen: Seen, log: seq<Acceptance>, now: int, pool: set<Key>, k: Key)
    requires Sound(seen, log, now) && Oldest(seen, pool, k)
    requires |pool| >= PROCESS_CAP || (|pool| >= BUCKET_CAP && forall j :: j in pool ==> j.bucket == k.bucket)
    ensures Sound(seen - {k}, log, now)
  {
    forall i | 0 <= i < |log|
      ensures Accounted(seen - {k}, log, now, log[i])
    {
      assert Accounted(seen, log, now, log[i]);
      if log[i].key == k && seen[k] >= log[i].time {
        EntriesCounted(seen, log, pool, log[i].time);
        assert Flooded(log, log[i]);
      }
    }
  }

  lemma InsertIsSound(seen: Seen, log: seq<Acceptance>, now: int, k: Key)
    requires Sound(seen, log, now) && k !in seen
    ensures Sound(seen[k := now], log + [Acceptance(k, now)], now)
  {
    var next := Acceptance(k, now);
    var log' := log + [next];
    var seen' := seen[k := now];
    forall i, j | 0 <= i < j < |log'| && log'[i].key == log'[j].key
      ensures log'[j].time > log'[i].time + RETENTION || Flooded(log'[..j], log'[i])
    {
      if j < |log| {
        assert log'[..j] == log[..j];
      } else {
        assert log'[..j] == log;
        assert Accounted(seen, log, now, log[i]);
      }
    }
    forall j | j in seen'
      ensures Acceptance(j, seen'[j]) in log'
    {
      if j != k {
        assert Acceptance(j, seen[j]) in log;
      }
    }
    forall i | 0 <= i < |log'|
      ensures Accounted(seen', log', now, log'[i])
    {
      if i < |log| {
        assert Accounted(seen, log, now, log[i]);
        if Flooded(log, log[i]) {
          FloodGrows(log, log[i], next);
        }
      }
    }
  }

  // ---- the cache ----

  class HelloCache {
    var seen: Seen
    ghost var log: seq<Acceptance>
    ghost var last: int

    ghost predicate Valid()
      reads this
    {
      && Sound(seen, log, last)
      && |seen| <= PROCESS_CAP
      && forall bucket :: |InBucket(seen, bucket)| <= BUCKET_CAP
    }

    constructor ()
      ensures Valid() && seen == map[] && log == []
    {
      seen, log, last := map[], [], 0;
      new;
      assert forall bucket :: InBucket(seen, bucket) == {};
    }

    /** The scan for an oldest entry of a pool. */
    method FindOldest(pool: set<Key>) returns (k: Key)
      requires pool != {} && pool <= seen.Keys
      ensures Oldest(seen, pool, k)
    {
      k :| k in pool;
      var todo := pool - {k};
      while todo != {}
        invariant todo <= pool && k in pool
        invariant forall j :: j in pool && j !in todo ==> seen[k] <= seen[j]
        decreases todo
      {
        var j :| j in todo;
        todo := todo - {j};
        if seen[j] < seen[k] {
          k := j;
        }
      }
    }

    /** Evict the oldest entry of the bucket while it is full. */
    method MakeRoomInBucket(bucket: string)
      requires Sound(seen, log, last) && |seen| <= PROCESS_CAP
      requires forall b :: |InBucket(seen, b)| <= BUCKET_CAP
      modifies this`seen
      ensures Sound(seen, log, last) && seen.Keys <= old(seen.Keys) && |seen| <= PROCESS_CAP
      ensures |InBucket(seen, bucket)| < BUCKET_CAP
      ensures forall b :: |InBucket(seen, b)| <= BUCKET_CAP
    {
      while |InBucket(seen, bucket)| >= BUCKET_CAP
        invariant Sound(seen, log, last) && seen.Keys <= old(seen.Keys) && |seen| <= PROCESS_CAP
        invariant forall b :: |InBucket(seen, b)| <= BUCKET_CAP
        decreases |seen|
      {
        var pool := InBucket(seen, bucket);
        var k := FindOldest(pool);
        Evict(k, pool);
      }
    }

    /** Evict the oldest entry of all while the cache is full. */
    method MakeRoom()
      requires Sound(seen, log, last) && |seen| <= PROCESS_CAP
      requires forall b :: |InBucket(seen, b)| <= BUCKET_CAP
      modifies this`seen
      ensures Sound(seen, log, last) && seen.Keys <= old(seen.Keys) && |seen| < PROCESS_CAP
      ensures forall b :: |InBucket(seen, b)| <= |InBucket(old(seen), b)|
    {
      while |seen| >= PROCESS_CAP
        invariant Sound(seen, log, last) && seen.Keys <= old(seen.Keys) && |seen| <= PROCESS_CAP
        invariant forall b :: |InBucket(seen, b)| <= |InBucket(old(seen), b)|
        decreases |seen|
      {
        var k := FindOldest(seen.Keys);
        Evict(k, seen.Keys);
      }
    }

    method Evict(k: Key, pool: set<Key>)
      requires Sound(seen, log, last) && Oldest(seen, pool, k)
      requires |pool| >= PROCESS_CAP || (|pool| >= BUCKET_CAP && forall j :: j in pool ==> j.bucket == k.bucket)
      modifies this`seen
      ensures seen == old(seen) - {k} && Sound(seen, log, last) && |seen| == |old(seen)| - 1
      ensures forall b :: |InBucket(seen, b)| <= |InBucket(old(seen), b)|
    {
      EvictIsSound(seen, log, last, pool, k);
      ghost var before := seen;
      seen := seen - {k};
      assert before.Keys == seen.Keys + {k};
      forall b
        ensures |InBucket(seen, b)| <= |InBucket(before, b)|
      {
        SubsetSize(InBucket(seen, b), InBucket(before, b));
      }
    }

    /** Drop what is older than the retention. */
    method Prune(now: int)
      requires Valid() && last <= now
      modifies this`seen, this`last
      ensures Valid() && seen == Unexpired(old(seen), now) && last == now
    {
      PruneIsSound(seen, log, last, now);
      ghost var before := seen;
      seen := Unexpired(seen, now);
      last := now;
      SubsetSize(seen.Keys, before.Keys);
      forall b
        ensures |InBucket(seen, b)| <= |InBucket(before, b)|
      {
        SubsetSize(InBucket(seen, b), InBucket(before, b));
      }
    }

    method Insert(key: Key, now: int)
      requires now == last && Sound(seen, log, last) && key !in seen && |seen| < PROCESS_CAP
      requires |InBucket(seen, key.bucket)| < BUCKET_CAP && forall b :: |InBucket(seen, b)| <= BUCKET_CAP
      modifies this`seen, this`log
      ensures Valid() && seen == old(seen)[key := now] && log == old(log) + [Acceptance(key, now)]
    {
      InsertIsSound(seen, log, now, key);
      InsertSizes(seen, key, now);
      ghost var after := seen[key := now];
      forall b
        ensures |InBucket(after, b)| <= BUCKET_CAP
      {
        assert |InBucket(seen, b)| <= BUCKET_CAP;
      }
      log := log + [Acceptance(key, now)];
      seen := seen[key := now];
    }

    /** Is this hello new? If so it is remembered. The caps hold after every call. */
    method Remember(key: Key, now: int) returns (isNew: bool)
      requires Valid() && last <= now
      modifies this
      ensures Valid() && last == now
      ensures isNew <==> key !in Unexpired(old(seen), now)
      ensures log == if isNew then old(log) + [Acceptance(key, now)] else old(log)
    {
      Prune(now);
      if key in seen {
        return false;
      }
      MakeRoomInBucket(key.bucket);
      MakeRoom();
      Insert(key, now);
      return true;
    }
  }

  lemma InsertSizes(seen: Seen, key: Key, now: int)
    requires key !in seen
    ensures |seen[key := now]| == |seen| + 1
    ensures |InBucket(seen[key := now], key.bucket)| == |InBucket(seen, key.bucket)| + 1
    ensures forall b :: b != key.bucket ==> |InBucket(seen[key := now], b)| == |InBucket(seen, b)|
  {
    var after := seen[key := now];
    assert after.Keys == seen.Keys + {key};
    assert InBucket(after, key.bucket) == InBucket(seen, key.bucket) + {key};
    forall b | b != key.bucket
      ensures |InBucket(after, b)| == |InBucket(seen, b)|
    {
      assert InBucket(after, b) == InBucket(seen, b);
    }
  }

  // ---- at most once ----

  /** A hello is verified only within the skew of its own timestamp. */
  predicate Timely(ts: int, receivedAt: int) {
    receivedAt - SKEW <= ts * SECOND <= receivedAt + SKEW
  }

  /** A verified hello is never accepted again, unless a bucket's worth in its
      bucket or a cache's worth in all were accepted at or after that instant. */
  lemma AcceptedAtMostOnce(seen: Seen, log: seq<Acceptance>, last: int, i: nat, j: nat, ts: int)
    requires Sound(seen, log, last) && i < j < |log| && log[i].key == log[j].key
    requires Timely(ts, log[i].time) && Timely(ts, log[j].time)
    ensures Flooded(log[..j], log[i])
  {
    assert log[j].time <= log[i].time + RETENTION;
  }

  // ---- the HTTP cache ----

  /** One call: entries of the full age are dropped first. */
  function HttpAfter(seen: map<string, int>, nonce: string, now: int, ttl: int): (bool, map<string, int>) {
    if nonce == "" then (false, seen)
    else
      var kept := map k | k in seen && seen[k] > now - ttl :: seen[k];
      if nonce in kept then (false, kept) else (true, kept[nonce := now])
  }

  class HttpCache {
    const ttl: int
    var seen: map<string, int>

    constructor (ttl: int)
      ensures this.ttl == ttl && seen == map[]
    {
      this.ttl := ttl;
      seen := map[];
    }

    method Accept(nonce: string, now: int) returns (ok: bool)
      modifies this`seen
      ensures (ok, seen) == HttpAfter(old(seen), nonce, now, ttl)
    {
      if nonce == "" {
        return false;
      }
      var todo := seen.Keys;
      while todo != {}
        invariant todo <= old(seen).Keys && seen.Keys <= old(seen).Keys
        invariant forall k :: k in old(seen) && k in todo ==> k in seen
        invariant forall k :: k in old(seen) && k !in todo ==> (k in seen <==> old(seen)[k] > now - ttl)
        invariant forall k :: k in seen ==> seen[k] == old(seen)[k]
        decreases todo
      {
        var k :| k in todo;
        todo := todo - {k};
        if !(seen[k] > now - ttl) {
          seen := seen - {k};
        }
      }
      assert seen == map k | k in old(seen) && old(seen)[k] > now - ttl :: old(seen)[k];
      if nonce in seen && seen[nonce] + ttl > now {
        return false;
      }
      seen := seen[nonce := now];
      return true;
    }
  }

  /** The cache after some calls, each with its time. */
  function HttpRun(seen: map<string, int>, calls: seq<(string, int)>, ttl: int): map<string, int>
    decreases |calls|
  {
    if calls == [] then seen
    else HttpRun(HttpAfter(seen, calls[0].0, calls[0].1, ttl).1, calls[1..], ttl)
  }

  predicate Ordered(calls: seq<(string, int)>, from: int) {
    && (forall i :: 0 <= i < |calls| ==> calls[i].1 >= from)
    && (forall i, j :: 0 <= i < j < |calls| ==> calls[i].1 <= calls[j].1)
  }

  /** When the nonce was last accepted, after an acceptance at this time: again
      whenever it comes at least the retention later. */
  function LastAccepted(calls: seq<(string, int)>, nonce: string, time: int, ttl: int): int
    decreases |calls|
  {
    if calls == [] then time
    else LastAccepted(calls[1..], nonce, if calls[0].0 == nonce && calls[0].1 - time >= ttl then calls[0].1 else time, ttl)
  }

  /** The cache holds the last acceptance until it is old enough. */
  predicate Holds(seen: map<string, int>, nonce: string, time: int, clock: int, ttl: int) {
    if nonce in seen then seen[nonce] == time else clock - time >= ttl
  }

  lemma CallHolds(seen: map<string, int>, call: (string, int), nonce: string, time: int, clock: int, ttl: int)
    requires Holds(seen, nonce, time, clock, ttl) && clock <= call.1 && ttl > 0 && nonce != ""
    ensures var (ok, after) := HttpAfter(seen, call.0, call.1, ttl);
      && (call.0 == nonce ==> (ok <==> call.1 - time >= ttl))
      && Holds(after, nonce, if call.0 == nonce && call.1 - time >= ttl then call.1 else time, call.1, ttl)
  {
  }

  lemma {:induction false} RunHolds(seen: map<string, int>, calls: seq<(string, int)>, nonce: string, time: int, clock: int, now: int, ttl: int)
    requires Holds(seen, nonce, time, clock, ttl) && ttl > 0 && nonce != ""
    requires Ordered(calls, clock) && clock <= now && forall i :: 0 <= i < |calls| ==> calls[i].1 <= now
    ensures Holds(HttpRun(seen, calls, ttl), nonce, LastAccepted(calls, nonce, time, ttl), now, ttl)
    decreases |calls|
  {
    if calls != [] {
      CallHolds(seen, calls[0], nonce, time, clock, ttl);
      var next := HttpAfter(seen, calls[0].0, calls[0].1, ttl).1;
      assert Ordered(calls[1..], calls[0].1) by {
        assert forall i :: 0 <= i < |calls[1..]| ==> calls[1..][i] == calls[i + 1];
      }
      RunHolds(next, calls[1..], nonce, if calls[0].0 == nonce && calls[0].1 - time >= ttl then calls[0].1 else time, calls[0].1, now, ttl);
    }
  }

  /** Whatever calls come between, for this nonce or others, a nonce that was
      accepted is accepted again if and only if at least the retention has passed
      since it was last accepted. */
  lemma HttpAcceptsAgainIff(seen: map<string, int>, nonce: string, time: int, calls: seq<(string, int)>, now: int, ttl: int)
    requires HttpAfter(seen, nonce, time, ttl).0 && ttl > 0
    requires Ordered(calls, time) && time <= now && forall i :: 0 <= i < |calls| ==> calls[i].1 <= now
    ensures var after := HttpRun(HttpAfter(seen, nonce, time, ttl).1, calls, ttl);
      HttpAfter(after, nonce, now, ttl).0 <==> now - LastAccepted(calls, nonce, time, ttl) >= ttl
  {
    var first := HttpAfter(seen, nonce, time, ttl).1;
    RunHolds(first, calls, nonce, time, time, now, ttl);
    CallHolds(HttpRun(first, calls, ttl), (nonce, now), nonce, LastAccepted(calls, nonce, time, ttl), now, ttl);
  }

  /** Before the retention has passed nothing is accepted in between, and at its
      very end only the nonce's first call is. */
  lemma {:induction false} LastAcceptedWithin(calls: seq<(string, int)>, nonce: string, time: int, now: int, ttl: int)
    requires Ordered(calls, time) && forall i :: 0 <= i < |calls| ==> calls[i].1 <= now
    requires time <= now <= time + ttl && ttl > 0
    ensures now < time + ttl ==> LastAccepted(calls, nonce, time, ttl) == time
    ensures now == time + ttl ==>
      (LastAccepted(calls, nonce, time, ttl) == time <==> forall i :: 0 <= i < |calls| && calls[i].0 == nonce ==> calls[i].1 < now)
    ensures LastAccepted(calls, nonce, time, ttl) == time || LastAccepted(calls, nonce, time, ttl) == now
    decreases |calls|
  {
    if calls != [] {
      var again := calls[0].0 == nonce && calls[0].1 - time >= ttl;
      assert forall i :: 0 <= i < |calls[1..]| ==> calls[1..][i] == calls[i + 1];
      if again {
        assert calls[0].1 == now;
        LastAcceptedWithin(calls[1..], nonce, now, now, ttl);
      } else {
        LastAcceptedWithin(calls[1..], nonce, time, now, ttl);
        assert forall i :: 0 < i < |calls| ==> calls[i] == calls[1..][i - 1];
      }
    }
  }

  /** A signed request that is timely at both receipts, and was accepted at the
      first, is accepted at the second if and only if they are the two edges of
      its window and no call at the second came before. */
  lemma ReplayedIff(seen: map<string, int>, nonce: string, ts: int, first: int, calls: seq<(string, int)>, second: int)
    requires Timely(ts, first) && Timely(ts, second) && first <= second
    requires HttpAfter(seen, nonce, first, RETENTION).0
    requires Ordered(calls, first) && forall i :: 0 <= i < |calls| ==> calls[i].1 <= second
    ensures var after := HttpRun(HttpAfter(seen, nonce, first, RETENTION).1, calls, RETENTION);
      HttpAfter(after, nonce, second, RETENTION).0 <==>
        && first == ts * SECOND - SKEW && second == ts * SECOND + SKEW
        && forall i :: 0 <= i < |calls| && calls[i].0 == nonce ==> calls[i].1 < second
  {
    HttpAcceptsAgainIff(seen, nonce, first, calls, second, RETENTION);
    LastAcceptedWithin(calls, nonce, first, second, RETENTION);
  }

  /** A signed request can be replayed once at the far edge of its window. */
  lemma HttpReplayAtTheEdge()
    ensures var ts, nonce := 1_000, "n";
      var first, second := ts * SECOND - SKEW, ts * SECOND + SKEW;
      && Timely(ts, first) && Timely(ts, second)
      && HttpAfter(map[], nonce, first, RETENTION).0
      && HttpAfter(HttpAfter(map[], nonce, first, RETENTION).1, nonce, second, RETENTION).0
  {
  }
}
