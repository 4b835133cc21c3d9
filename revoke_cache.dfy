/** The message cache of the anti-revoke plugin, as values.

    The plugin keeps a Python dictionary `message_cache` from a key
    `message_id + "_" + sender_id` to a record of the cached message.  Python
    dictionaries remember insertion order, and `min(...)` over their keys
    returns the first minimal key in that order, so the dictionary is modelled
    here as a sequence of slots in insertion order with pairwise distinct keys.
    Time is an integer clock reading (`time.time()` in the plugin). */
module RevokeCache {
  import opened Wrappers
  import opened SeqFacts

  /** The record stored under a cache key. */
  datatype CachedMessage = CachedMessage(
    timestamp: int,       // clock reading at insertion; drives expiry and eviction
    content: string,      // the plain text of the message
    senderName: string,
    senderId: string,
    groupId: string,      // "" when the message came from a private chat
    messageTime: string,  // display time of the original message
    platform: string)

  /** One dictionary entry. */
  datatype Slot = Slot(key: string, msg: CachedMessage)

  /** The cache key of a message: plain concatenation with an underscore. */
  function MessageKey(messageId: string, senderId: string): string {
    messageId + "_" + senderId
  }

  /** The key does not separate its two parts: an underscore inside the
      message id makes two different pairs collide. */
  lemma MessageKeyCollides()
    ensures MessageKey("1_2", "3") == MessageKey("1", "2_3")
  {
  }

  /** When message ids hold no underscore the key determines both parts. */
  lemma {:induction false} MessageKeyInjective(m1: string, s1: string, m2: string, s2: string)
    requires '_' !in m1 && '_' !in m2
    requires MessageKey(m1, s1) == MessageKey(m2, s2)
    ensures m1 == m2 && s1 == s2
  {
    var k := MessageKey(m1, s1);
    assert forall i :: 0 <= i < |m1| ==> k[i] == m1[i];
    assert forall i :: 0 <= i < |m2| ==> k[i] == m2[i];
    assert k[|m1|] == '_' && k[|m2|] == '_';
    assert |m1| == |m2|;
    assert m1 == k[..|m1|] && m2 == k[..|m2|];
    assert s1 == k[|m1| + 1..] && s2 == k[|m2| + 1..];
  }

  /** No key occurs twice: the sequence is a well-formed dictionary. */
  predicate DistinctKeys(s: seq<Slot>) {
    forall i, j :: 0 <= i < j < |s| ==> s[i].key != s[j].key
  }

  /** No string occurs twice in the list. */
  predicate NoDuplicates(ks: seq<string>) {
    forall i, j :: 0 <= i < j < |ks| ==> ks[i] != ks[j]
  }

  /** The position of key `k` in the dictionary, or -1 when `k` is absent. */
  function IndexOf(s: seq<Slot>, k: string): (r: int)
    ensures -1 <= r < |s|
    ensures 0 <= r ==> s[r].key == k
    ensures r == -1 <==> forall j :: 0 <= j < |s| ==> s[j].key != k
  {
    if s == [] then -1
    else if s[0].key == k then 0
    else
      var r := IndexOf(s[1..], k);
      if r < 0 then -1 else r + 1
  }

  /** `message_cache.get(k)`. */
  function Get(s: seq<Slot>, k: string): Option<CachedMessage> {
    var i := IndexOf(s, k);
    if i < 0 then None else Some(s[i].msg)
  }

  /** `del message_cache[key]` for the key at position `i`. */
  function RemoveAt(s: seq<Slot>, i: nat): (r: seq<Slot>)
    requires i < |s|
    ensures |r| == |s| - 1
  {
    s[..i] + s[i + 1..]
  }

  /** `message_cache[k] = m`: an existing key keeps its position and gets the
      new record; a new key goes to the end. */
  function Put(s: seq<Slot>, k: string, m: CachedMessage): (r: seq<Slot>)
    ensures |s| <= |r| <= |s| + 1
  {
    var i := IndexOf(s, k);
    if i < 0 then s + [Slot(k, m)] else s[i := Slot(k, m)]
  }

  /** The slots that satisfy `keep`, in their original order. */
  function Filter(s: seq<Slot>, keep: Slot -> bool): (r: seq<Slot>)
    ensures |r| <= |s|
    ensures forall x :: x in r <==> x in s && keep(x)
  {
    if s == [] then []
    else
      var rest := Filter(s[1..], keep);
      assert forall x :: x in s <==> x == s[0] || x in s[1..];
      (if keep(s[0]) then [s[0]] else []) + rest
  }

  /** An entry is expired when its age is strictly greater than the limit. */
  predicate IsExpired(m: CachedMessage, now: int, expireTime: int) {
    now - m.timestamp > expireTime
  }

  function NotExpired(now: int, expireTime: int): Slot -> bool {
    (x: Slot) => !IsExpired(x.msg, now, expireTime)
  }

  function KeyNotIn(ks: seq<string>): Slot -> bool {
    (x: Slot) => x.key !in ks
  }

  /** What the sweep must leave: the entries that are not expired, in order. */
  function Fresh(s: seq<Slot>, now: int, expireTime: int): seq<Slot> {
    Filter(s, NotExpired(now, expireTime))
  }

  /** The dictionary without the keys listed in `ks`. */
  function Without(s: seq<Slot>, ks: seq<string>): seq<Slot> {
    Filter(s, KeyNotIn(ks))
  }

  /** The sweep's list of expired keys, in dictionary order. */
  function ExpiredKeys(s: seq<Slot>, now: int, expireTime: int): (r: seq<string>)
    ensures forall x :: x in s && IsExpired(x.msg, now, expireTime) ==> x.key in r
    ensures forall k :: k in r ==> exists x :: x in s && x.key == k && IsExpired(x.msg, now, expireTime)
  {
    if s == [] then []
    else
      var rest := ExpiredKeys(s[1..], now, expireTime);
      assert forall x :: x in s <==> x == s[0] || x in s[1..];
      (if IsExpired(s[0].msg, now, expireTime) then [s[0].key] else []) + rest
  }

  /** `min(message_cache.keys(), key=timestamp)`: the first position whose
      timestamp is minimal. */
  function OldestIndex(s: seq<Slot>): (r: nat)
    requires |s| > 0
    ensures r < |s|
    ensures forall j :: 0 <= j < |s| ==> s[r].msg.timestamp <= s[j].msg.timestamp
    ensures forall j :: 0 <= j < r ==> s[j].msg.timestamp > s[r].msg.timestamp
  {
    if |s| == 1 then 0
    else
      var j := OldestIndex(s[1..]) + 1;
      if s[j].msg.timestamp < s[0].msg.timestamp then j else 0
  }

  /** The key evicted by an insertion, if any: when the swept dictionary is
      still at or over capacity, its oldest entry. */
  function Evicted(s: seq<Slot>, now: int, maxSize: nat, expireTime: int): Option<string> {
    var swept := Fresh(s, now, expireTime);
    if |swept| >= maxSize && swept != [] then Some(swept[OldestIndex(swept)].key) else None
  }

  /** `_add_message_to_cache` at time `now`: sweep the expired entries, evict
      the oldest entry if the cache is still full, then store `m` stamped with
      `now` under key `k`.  When the cache is full and empty at once (a
      capacity of zero), `min` of no keys raises, the plugin logs the error,
      and the insertion is skipped after the sweep. */
  function Record(s: seq<Slot>, k: string, now: int, m: CachedMessage, maxSize: nat, expireTime: int): seq<Slot> {
    var swept := Fresh(s, now, expireTime);
    if |swept| >= maxSize then
      if swept == [] then swept
      else Put(RemoveAt(swept, OldestIndex(swept)), k, m.(timestamp := now))
    else Put(swept, k, m.(timestamp := now))
  }

  /** The outcome of a consuming lookup: the record found (if any) and the
      dictionary afterwards. */
  datatype Taken = Taken(found: Option<CachedMessage>, rest: seq<Slot>)

  /** `_get_message_from_cache` at time `now`: an absent key finds nothing and
      changes nothing; a present key is always removed, and its record is
      returned only when it is not expired. */
  function Take(s: seq<Slot>, k: string, now: int, expireTime: int): Taken {
    var i := IndexOf(s, k);
    if i < 0 then Taken(None, s)
    else if IsExpired(s[i].msg, now, expireTime) then Taken(None, RemoveAt(s, i))
    else Taken(Some(s[i].msg), RemoveAt(s, i))
  }

  /** The keys the recall handler tries when the exact lookup finds nothing. */
  function AlternativeKeys(messageId: string, userId: string): seq<string> {
    [MessageKey(messageId, userId), messageId, "msg_" + messageId, "id_" + messageId]
  }

  /** The fallback probe: the first listed key that is present is removed and
      its record returned, with no expiry check. */
  function Probe(s: seq<Slot>, keys: seq<string>): Taken {
    if keys == [] then Taken(None, s)
    else
      var i := IndexOf(s, keys[0]);
      if i >= 0 then Taken(Some(s[i].msg), RemoveAt(s, i)) else Probe(s, keys[1..])
  }

  /** The whole lookup of the recall handler: the exact key first; when it
      finds nothing, the fallback probe on what is left. */
  function Resolve(s: seq<Slot>, messageId: string, userId: string, now: int, expireTime: int): Taken {
    var t := Take(s, MessageKey(messageId, userId), now, expireTime);
    if t.found.Some? then t else Probe(t.rest, AlternativeKeys(messageId, userId))
  }

  // ---------------------------------------------------------------------
  // Dictionary algebra

  /** In a well-formed dictionary a slot's key leads back to its position. */
  lemma IndexOfKey(s: seq<Slot>, i: nat)
    requires DistinctKeys(s) && i < |s|
    ensures IndexOf(s, s[i].key) == i
  {
    var r := IndexOf(s, s[i].key);
    assert r >= 0 && s[r].key == s[i].key;
    assert !(r < i) && !(i < r);
  }

  /** Two slots of a well-formed dictionary with the same key are the same slot. */
  lemma SameKeySameSlot(s: seq<Slot>, x: Slot, y: Slot)
    requires DistinctKeys(s) && x in s && y in s && x.key == y.key
    ensures x == y
  {
    var i :| 0 <= i < |s| && s[i] == x;
    var j :| 0 <= j < |s| && s[j] == y;
    assert !(i < j) && !(j < i);
  }

  /** In a well-formed dictionary, a member slot is what `get` returns for its key. */
  lemma GetMember(s: seq<Slot>, x: Slot)
    requires DistinctKeys(s) && x in s
    ensures Get(s, x.key) == Some(x.msg)
  {
    var j :| 0 <= j < |s| && s[j] == x;
    assert s[j].key == x.key;
    var i := IndexOf(s, x.key);
    assert s[i] in s;
    SameKeySameSlot(s, s[i], x);
  }

  /** `get` returns nothing exactly when no slot carries the key, and
      otherwise the record of a member slot. */
  lemma GetNone(s: seq<Slot>, k: string)
    ensures Get(s, k) == None <==> forall x :: x in s ==> x.key != k
    ensures Get(s, k).Some? ==> Slot(k, Get(s, k).value) in s
  {
    var i := IndexOf(s, k);
    if i >= 0 {
      assert s[i] in s;
    } else {
      forall x | x in s ensures x.key != k {
        var j :| 0 <= j < |s| && s[j] == x;
      }
    }
  }

  lemma {:induction false} FilterDistinct(s: seq<Slot>, keep: Slot -> bool)
    requires DistinctKeys(s)
    ensures DistinctKeys(Filter(s, keep))
  {
    if s != [] {
      var rest := Filter(s[1..], keep);
      FilterDistinct(s[1..], keep);
      var head := if keep(s[0]) then [s[0]] else [];
      var r := head + rest;
      forall i, j | 0 <= i < j < |r| ensures r[i].key != r[j].key {
        if head != [] && i == 0 {
          assert r[j] in s[1..];
          var t :| 0 <= t < |s[1..]| && s[1..][t] == r[j];
          assert s[1 + t] == r[j];
        } else {
          var o := |head|;
          assert r[i] == rest[i - o] && r[j] == rest[j - o];
        }
      }
    }
  }

  lemma {:induction false} FilterSame(s: seq<Slot>, f: Slot -> bool, g: Slot -> bool)
    requires forall x :: x in s ==> f(x) == g(x)
    ensures Filter(s, f) == Filter(s, g)
  {
    if s != [] {
      assert forall x :: x in s[1..] ==> x in s;
      FilterSame(s[1..], f, g);
    }
  }

  lemma {:induction false} FilterFilter(s: seq<Slot>, f: Slot -> bool, g: Slot -> bool, h: Slot -> bool)
    requires forall x :: h(x) == (f(x) && g(x))
    ensures Filter(Filter(s, f), g) == Filter(s, h)
  {
    if s != [] {
      FilterFilter(s[1..], f, g, h);
      var head := if f(s[0]) then [s[0]] else [];
      assert Filter(s, f) == head + Filter(s[1..], f);
      if f(s[0]) {
        assert Filter(s, f)[0] == s[0];
        assert Filter(s, f)[1..] == Filter(s[1..], f);
      } else {
        assert Filter(s, f) == Filter(s[1..], f);
        assert Filter(s, h) == Filter(s[1..], h);
      }
    }
  }

  lemma {:induction false} FilterAll(s: seq<Slot>, keep: Slot -> bool)
    requires forall x :: x in s ==> keep(x)
    ensures Filter(s, keep) == s
  {
    if s != [] {
      assert forall x :: x in s[1..] ==> x in s;
      FilterAll(s[1..], keep);
    }
  }

  lemma {:induction false} FilterConcat(a: seq<Slot>, b: seq<Slot>, keep: Slot -> bool)
    ensures Filter(a + b, keep) == Filter(a, keep) + Filter(b, keep)
  {
    if a != [] {
      assert (a + b)[1..] == a[1..] + b;
      FilterConcat(a[1..], b, keep);
    } else {
      assert a + b == b;
    }
  }

  lemma RemoveAtDistinct(s: seq<Slot>, i: nat)
    requires DistinctKeys(s) && i < |s|
    ensures DistinctKeys(RemoveAt(s, i))
    ensures forall x :: x in RemoveAt(s, i) <==> x in s && x.key != s[i].key
  {
    var r := RemoveAt(s, i);
    forall a, b | 0 <= a < b < |r| ensures r[a].key != r[b].key {
      var a' := if a < i then a else a + 1;
      var b' := if b < i then b else b + 1;
      assert r[a] == s[a'] && r[b] == s[b'];
    }
    forall x ensures x in r <==> x in s && x.key != s[i].key {
      if x in r {
        var t :| 0 <= t < |r| && r[t] == x;
        var t' := if t < i then t else t + 1;
        assert s[t'] == x;
      }
      if x in s && x.key != s[i].key {
        var t :| 0 <= t < |s| && s[t] == x;
        assert t != i;
        if t < i { assert r[t] == x; } else { assert r[t - 1] == x; }
      }
    }
  }

  /** Deleting the key at position `i` is filtering that key out. */
  lemma WithoutOne(s: seq<Slot>, i: nat)
    requires DistinctKeys(s) && i < |s|
    ensures Without(s, [s[i].key]) == RemoveAt(s, i)
  {
    var keep := KeyNotIn([s[i].key]);
    var before, after := s[..i], s[i + 1..];
    assert Filter(before, keep) == before by {
      forall x | x in before ensures keep(x) {
        var t :| 0 <= t < |before| && before[t] == x;
        assert s[t] == x;
      }
      FilterAll(before, keep);
    }
    assert Filter(after, keep) == after by {
      forall x | x in after ensures keep(x) {
        var t :| 0 <= t < |after| && after[t] == x;
        assert s[i + 1 + t] == x;
      }
      FilterAll(after, keep);
    }
    FilterAround(s, i, keep);
    assert !keep(s[i]);
    assert [] + after == after;
  }

  /** Filtering splits around position `i`. */
  lemma FilterAround(s: seq<Slot>, i: nat, keep: Slot -> bool)
    requires i < |s|
    ensures Filter(s, keep) == Filter(s[..i], keep) + ((if keep(s[i]) then [s[i]] else []) + Filter(s[i + 1..], keep))
  {
    var tail := s[i..];
    assert s[..i] + tail == s;
    FilterConcat(s[..i], tail, keep);
    assert tail[0] == s[i] && tail[1..] == s[i + 1..];
    assert Filter(tail, keep) == (if keep(s[i]) then [s[i]] else []) + Filter(s[i + 1..], keep);
  }

  /** Deleting one more key after a batch of deletions. */
  lemma WithoutStep(s: seq<Slot>, ks: seq<string>, k: string)
    ensures Without(Without(s, ks), [k]) == Without(s, ks + [k])
  {
    FilterFilter(s, KeyNotIn(ks), KeyNotIn([k]), KeyNotIn(ks + [k]));
  }

  /** Deleting the listed expired keys is the sweep. */
  lemma SweepIsFresh(s: seq<Slot>, now: int, expireTime: int)
    requires DistinctKeys(s)
    ensures Without(s, ExpiredKeys(s, now, expireTime)) == Fresh(s, now, expireTime)
  {
    var ks := ExpiredKeys(s, now, expireTime);
    forall x | x in s ensures (x.key !in ks) == !IsExpired(x.msg, now, expireTime) {
      if x.key in ks {
        var y :| y in s && y.key == x.key && IsExpired(y.msg, now, expireTime);
        SameKeySameSlot(s, x, y);
      }
    }
    FilterSame(s, KeyNotIn(ks), NotExpired(now, expireTime));
  }

  /** A key of `s` that has not been deleted yet is still present. */
  lemma StillPresent(s: seq<Slot>, ks: seq<string>, k: string)
    requires k !in ks && Get(s, k).Some?
    ensures Get(Without(s, ks), k).Some?
  {
    GetNone(s, k);
    var x := Slot(k, Get(s, k).value);
    assert x in Without(s, ks);
    GetNone(Without(s, ks), k);
  }

  /** The listed expired keys are pairwise distinct. */
  lemma {:induction false} ExpiredKeysDistinct(s: seq<Slot>, now: int, expireTime: int)
    requires DistinctKeys(s)
    ensures NoDuplicates(ExpiredKeys(s, now, expireTime))
  {
    if s != [] {
      ExpiredKeysDistinct(s[1..], now, expireTime);
      var rest := ExpiredKeys(s[1..], now, expireTime);
      var ks := ExpiredKeys(s, now, expireTime);
      if IsExpired(s[0].msg, now, expireTime) {
        forall k | k in rest ensures k != s[0].key {
          var y :| y in s[1..] && y.key == k && IsExpired(y.msg, now, expireTime);
          var t :| 0 <= t < |s[1..]| && s[1..][t] == y;
          assert s[1 + t] == y;
        }
        assert ks == [s[0].key] + rest;
        forall i, j | 0 <= i < j < |ks| ensures ks[i] != ks[j] {
          assert ks[j] == rest[j - 1] && rest[j - 1] in rest;
          if i > 0 {
            assert ks[i] == rest[i - 1];
            assert 0 <= i - 1 < j - 1 < |rest|;
          }
        }
      } else {
        assert ks == rest;
      }
    }
  }

  lemma PutFacts(s: seq<Slot>, k: string, m: CachedMessage)
    requires DistinctKeys(s)
    ensures DistinctKeys(Put(s, k, m))
    ensures Get(Put(s, k, m), k) == Some(m)
    ensures forall k' :: k' != k ==> Get(Put(s, k, m), k') == Get(s, k')
  {
    var r := Put(s, k, m);
    var i := IndexOf(s, k);
    assert r[if i < 0 then |s| else i] == Slot(k, m);
    forall x | x in r && x.key != k ensures x in s {
      var t :| 0 <= t < |r| && r[t] == x;
      assert s[t] == x;
    }
    forall x | x in s && x.key != k ensures x in r {
      var t :| 0 <= t < |s| && s[t] == x;
      assert r[t] == x;
    }
    assert DistinctKeys(r);
    GetMember(r, Slot(k, m));
    forall k' | k' != k ensures Get(r, k') == Get(s, k') {
      GetNone(s, k');
      GetNone(r, k');
      if Get(s, k').Some? { GetMember(r, Slot(k', Get(s, k').value)); }
      if Get(r, k').Some? { GetMember(s, Slot(k', Get(r, k').value)); }
    }
  }

  lemma RemoveAtFacts(s: seq<Slot>, i: nat)
    requires DistinctKeys(s) && i < |s|
    ensures Get(RemoveAt(s, i), s[i].key) == None
    ensures forall k' :: k' != s[i].key ==> Get(RemoveAt(s, i), k') == Get(s, k')
  {
    var r := RemoveAt(s, i);
    RemoveAtDistinct(s, i);
    GetNone(r, s[i].key);
    forall k' | k' != s[i].key ensures Get(r, k') == Get(s, k') {
      GetNone(s, k');
      GetNone(r, k');
      if Get(s, k').Some? { GetMember(r, Slot(k', Get(s, k').value)); }
      if Get(r, k').Some? { GetMember(s, Slot(k', Get(r, k').value)); }
    }
  }

  /** What `get` sees after the sweep: exactly the unexpired entries. */
  lemma GetFresh(s: seq<Slot>, now: int, expireTime: int, k: string)
    requires DistinctKeys(s)
    ensures DistinctKeys(Fresh(s, now, expireTime))
    ensures Get(Fresh(s, now, expireTime), k) ==
      if Get(s, k).Some? && !IsExpired(Get(s, k).value, now, expireTime) then Get(s, k) else None
  {
    var f := Fresh(s, now, expireTime);
    FilterDistinct(s, NotExpired(now, expireTime));
    GetNone(s, k);
    GetNone(f, k);
    if Get(s, k).Some? && !IsExpired(Get(s, k).value, now, expireTime) {
      GetMember(f, Slot(k, Get(s, k).value));
    } else if Get(f, k).Some? {
      GetMember(s, Slot(k, Get(f, k).value));
    }
  }

  // ---------------------------------------------------------------------
  // Properties of an insertion

  /** Insertion keeps the dictionary well formed and within capacity. */
  lemma RecordKeepsBound(s: seq<Slot>, k: string, now: int, m: CachedMessage, maxSize: nat, expireTime: int)
    requires DistinctKeys(s) && |s| <= maxSize
    ensures DistinctKeys(Record(s, k, now, m, maxSize, expireTime))
    ensures |Record(s, k, now, m, maxSize, expireTime)| <= maxSize
  {
    var swept := Fresh(s, now, expireTime);
    FilterDistinct(s, NotExpired(now, expireTime));
    if |swept| >= maxSize && swept != [] {
      var i := OldestIndex(swept);
      RemoveAtDistinct(swept, i);
      PutFacts(RemoveAt(swept, i), k, m.(timestamp := now));
    } else if |swept| < maxSize {
      PutFacts(swept, k, m.(timestamp := now));
    }
  }

  /** With room for at least one entry, the new record is stored under its
      key, stamped with the insertion time, replacing any earlier record. */
  lemma RecordStores(s: seq<Slot>, k: string, now: int, m: CachedMessage, maxSize: nat, expireTime: int)
    requires DistinctKeys(s) && maxSize >= 1
    ensures Get(Record(s, k, now, m, maxSize, expireTime), k) == Some(m.(timestamp := now))
  {
    var swept := Fresh(s, now, expireTime);
    FilterDistinct(s, NotExpired(now, expireTime));
    if |swept| >= maxSize {
      var i := OldestIndex(swept);
      RemoveAtDistinct(swept, i);
      PutFacts(RemoveAt(swept, i), k, m.(timestamp := now));
    } else {
      PutFacts(swept, k, m.(timestamp := now));
    }
  }

  /** Every other key keeps its record after an insertion unless it was
      expired (then it is gone) or it is the one evicted key (then it is gone). */
  lemma RecordOthers(s: seq<Slot>, k: string, now: int, m: CachedMessage, maxSize: nat, expireTime: int, k': string)
    requires DistinctKeys(s) && k' != k
    ensures Get(Record(s, k, now, m, maxSize, expireTime), k') ==
      if Get(s, k').Some? && !IsExpired(Get(s, k').value, now, expireTime)
         && Evicted(s, now, maxSize, expireTime) != Some(k')
      then Get(s, k') else None
  {
    var swept := Fresh(s, now, expireTime);
    GetFresh(s, now, expireTime, k');
    if |swept| >= maxSize && swept != [] {
      var i := OldestIndex(swept);
      RemoveAtDistinct(swept, i);
      RemoveAtFacts(swept, i);
      PutFacts(RemoveAt(swept, i), k, m.(timestamp := now));
    } else if |swept| < maxSize {
      PutFacts(swept, k, m.(timestamp := now));
    }
  }

  /** The evicted key belongs to an unexpired entry whose timestamp is
      minimal among the unexpired entries, and it happens only when the
      unexpired entries fill the cache. */
  lemma EvictsOldest(s: seq<Slot>, now: int, maxSize: nat, expireTime: int)
    requires DistinctKeys(s) && Evicted(s, now, maxSize, expireTime).Some?
    ensures |Fresh(s, now, expireTime)| >= maxSize
    ensures var e := Evicted(s, now, maxSize, expireTime).value;
      Get(s, e).Some? && !IsExpired(Get(s, e).value, now, expireTime)
      && forall x :: x in s && !IsExpired(x.msg, now, expireTime) ==>
           Get(s, e).value.timestamp <= x.msg.timestamp
  {
    var swept := Fresh(s, now, expireTime);
    var i := OldestIndex(swept);
    assert swept[i] in swept;
    GetMember(s, swept[i]);
    forall x | x in s && !IsExpired(x.msg, now, expireTime)
      ensures swept[i].msg.timestamp <= x.msg.timestamp
    {
      assert x in swept;
      var t :| 0 <= t < |swept| && swept[t] == x;
    }
  }

  // ---------------------------------------------------------------------
  // Properties of a consuming lookup

  /** A lookup returns the record only when it is present and not expired,
      always leaves the key absent, and touches no other key; an absent key
      leaves the dictionary exactly as it was. */
  lemma TakeFacts(s: seq<Slot>, k: string, now: int, expireTime: int)
    requires DistinctKeys(s)
    ensures var t := Take(s, k, now, expireTime);
      && t.found == (if Get(s, k).Some? && !IsExpired(Get(s, k).value, now, expireTime) then Get(s, k) else None)
      && DistinctKeys(t.rest)
      && Get(t.rest, k) == None
      && (forall k' :: k' != k ==> Get(t.rest, k') == Get(s, k'))
      && (Get(s, k) == None ==> t.rest == s)
      && |t.rest| >= |s| - 1
  {
    var i := IndexOf(s, k);
    if i >= 0 {
      RemoveAtDistinct(s, i);
      RemoveAtFacts(s, i);
    }
  }

  /** Consume-on-read: a second lookup of the same key finds nothing. */
  lemma TakeTwice(s: seq<Slot>, k: string, now: int, later: int, expireTime: int)
    requires DistinctKeys(s)
    ensures Take(Take(s, k, now, expireTime).rest, k, later, expireTime).found == None
  {
    TakeFacts(s, k, now, expireTime);
    TakeFacts(Take(s, k, now, expireTime).rest, k, later, expireTime);
  }

  /** A lookup right after an insertion returns exactly the inserted record
      while it is not expired, and nothing once it is. */
  lemma RecordThenTake(s: seq<Slot>, k: string, now: int, m: CachedMessage, maxSize: nat, expireTime: int, later: int)
    requires DistinctKeys(s) && |s| <= maxSize && maxSize >= 1
    ensures var t := Take(Record(s, k, now, m, maxSize, expireTime), k, later, expireTime);
      && t.found == (if later - now > expireTime then None else Some(m.(timestamp := now)))
      && Get(t.rest, k) == None
  {
    RecordKeepsBound(s, k, now, m, maxSize, expireTime);
    RecordStores(s, k, now, m, maxSize, expireTime);
    TakeFacts(Record(s, k, now, m, maxSize, expireTime), k, later, expireTime);
  }

  // ---------------------------------------------------------------------
  // Properties of the fallback probe

  /** The position of the first key of `keys` that is present in `s`, or
      `|keys|` when none is. */
  function FirstPresent(s: seq<Slot>, keys: seq<string>): (j: nat)
    ensures j <= |keys|
    ensures forall j' :: 0 <= j' < j ==> Get(s, keys[j']) == None
    ensures j < |keys| ==> Get(s, keys[j]).Some?
  {
    if keys == [] then 0
    else if Get(s, keys[0]).Some? then 0
    else
      var j := FirstPresent(s, keys[1..]);
      assert forall j' :: 1 <= j' < 1 + j ==> keys[j'] == keys[1..][j' - 1];
      1 + j
  }

  /** The probe takes the record under the first present key and deletes
      that key and nothing else; when no key is present it takes nothing and
      changes nothing. */
  lemma {:induction false} ProbeFacts(s: seq<Slot>, keys: seq<string>)
    ensures var j := FirstPresent(s, keys);
      Probe(s, keys) ==
        if j < |keys| then Taken(Get(s, keys[j]), RemoveAt(s, IndexOf(s, keys[j])))
        else Taken(None, s)
  {
    if keys != [] && IndexOf(s, keys[0]) < 0 {
      ProbeFacts(s, keys[1..]);
      var j := FirstPresent(s, keys[1..]);
      if j < |keys[1..]| {
        assert keys[1..][j] == keys[1 + j];
      }
    }
  }

  /** After the exact lookup has missed, the first alternative key (the
      exact key itself) can never match. */
  lemma FirstAlternativeNeverMatches(s: seq<Slot>, messageId: string, userId: string, now: int, expireTime: int)
    requires DistinctKeys(s)
    ensures Get(Take(s, MessageKey(messageId, userId), now, expireTime).rest, AlternativeKeys(messageId, userId)[0]) == None
  {
    TakeFacts(s, MessageKey(messageId, userId), now, expireTime);
  }

  /** The recall lookup returns an unexpired record under the exact key when
      there is one; otherwise whatever it returns was stored under one of the
      alternative keys.  It removes at most two entries: an expired one under
      the exact key and one found by the probe. */
  lemma ResolveFacts(s: seq<Slot>, messageId: string, userId: string, now: int, expireTime: int)
    requires DistinctKeys(s)
    ensures var r := Resolve(s, messageId, userId, now, expireTime);
      var k := MessageKey(messageId, userId);
      && DistinctKeys(r.rest)
      && |r.rest| >= |s| - 2
      && (Get(s, k).Some? && !IsExpired(Get(s, k).value, now, expireTime) ==> r.found == Get(s, k))
      && (r.found.Some? ==> exists j :: 0 <= j < 4 && Get(s, AlternativeKeys(messageId, userId)[j]) == r.found)
  {
    var k := MessageKey(messageId, userId);
    var t := Take(s, k, now, expireTime);
    TakeFacts(s, k, now, expireTime);
    if t.found.None? {
      var alts := AlternativeKeys(messageId, userId);
      ProbeFacts(t.rest, alts);
      var j := FirstPresent(t.rest, alts);
      if j < |alts| {
        assert alts[j] != k;
        RemoveAtDistinct(t.rest, IndexOf(t.rest, alts[j]));
      }
    } else {
      assert AlternativeKeys(messageId, userId)[0] == k;
    }
  }

  // ---------------------------------------------------------------------
  // Concrete scenarios

  function Msg(content: string, senderName: string, groupId: string): CachedMessage {
    CachedMessage(0, content, senderName, "", groupId, "", "aiocqhttp")
  }

  /** Recording at 1000 and resolving one second later returns the cached
      content; resolving again finds nothing. */
  lemma ScenarioResolveFresh()
    ensures var s := Record([], MessageKey("m1", "u1"), 1000, Msg("hello", "Alice", ""), 1000, 3600);
      var t := Take(s, MessageKey("m1", "u1"), 1001, 3600);
      && t.found == Some(Msg("hello", "Alice", "").(timestamp := 1000))
      && Take(t.rest, MessageKey("m1", "u1"), 1001, 3600).found == None
  {
    RecordThenTake([], MessageKey("m1", "u1"), 1000, Msg("hello", "Alice", ""), 1000, 3600, 1001);
    var s := Record([], MessageKey("m1", "u1"), 1000, Msg("hello", "Alice", ""), 1000, 3600);
    RecordKeepsBound([], MessageKey("m1", "u1"), 1000, Msg("hello", "Alice", ""), 1000, 3600);
    TakeTwice(s, MessageKey("m1", "u1"), 1001, 1001, 3600);
  }

  /** Resolving 3601 seconds after recording finds nothing, twice. */
  lemma ScenarioResolveExpired()
    ensures var s := Record([], MessageKey("m2", "u2"), 1000, Msg("bye", "Bob", "g1"), 1000, 3600);
      var t := Take(s, MessageKey("m2", "u2"), 4601, 3600);
      && t.found == None
      && Take(t.rest, MessageKey("m2", "u2"), 4601, 3600).found == None
  {
    RecordThenTake([], MessageKey("m2", "u2"), 1000, Msg("bye", "Bob", "g1"), 1000, 3600, 4601);
    var s := Record([], MessageKey("m2", "u2"), 1000, Msg("bye", "Bob", "g1"), 1000, 3600);
    RecordKeepsBound([], MessageKey("m2", "u2"), 1000, Msg("bye", "Bob", "g1"), 1000, 3600);
    TakeTwice(s, MessageKey("m2", "u2"), 4601, 4601, 3600);
  }

  /** Recording a new key into a dictionary with nothing expired and room
      to spare appends it. */
  lemma RecordAppends(s: seq<Slot>, k: string, now: int, m: CachedMessage, maxSize: nat, expireTime: int)
    requires Fresh(s, now, expireTime) == s && |s| < maxSize && IndexOf(s, k) < 0
    ensures Record(s, k, now, m, maxSize, expireTime) == s + [Slot(k, m.(timestamp := now))]
  {
  }

  /** Recording a new key into a full dictionary with nothing expired whose
      first entry is the oldest drops that entry and appends the new one. */
  lemma RecordEvictsFirst(s: seq<Slot>, k: string, now: int, m: CachedMessage, maxSize: nat, expireTime: int)
    requires Fresh(s, now, expireTime) == s && s != [] && |s| >= maxSize
    requires OldestIndex(s) == 0 && IndexOf(s[1..], k) < 0
    ensures Record(s, k, now, m, maxSize, expireTime) == s[1..] + [Slot(k, m.(timestamp := now))]
  {
    assert RemoveAt(s, 0) == s[1..];
  }

  /** With capacity 2, recording three different keys at times 0, 1 and 2
      evicts the first. */
  lemma EvictsFirstRecorded(ka: string, kb: string, kc: string, m: CachedMessage)
    requires ka != kb && ka != kc && kb != kc
    ensures var s1 := Record([], ka, 0, m, 2, 3600);
      var s2 := Record(s1, kb, 1, m, 2, 3600);
      Record(s2, kc, 2, m, 2, 3600) == [Slot(kb, m.(timestamp := 1)), Slot(kc, m.(timestamp := 2))]
  {
    var a, b, c := Slot(ka, m.(timestamp := 0)), Slot(kb, m.(timestamp := 1)), Slot(kc, m.(timestamp := 2));
    FilterAll([], NotExpired(0, 3600));
    RecordAppends([], ka, 0, m, 2, 3600);
    AppendEmpty([a]);
    FilterAll([a], NotExpired(1, 3600));
    RecordAppends([a], kb, 1, m, 2, 3600);
    FilterAll([a, b], NotExpired(2, 3600));
    assert OldestIndex([a, b]) == 0;
    assert [a, b][1..] == [b];
    RecordEvictsFirst([a, b], kc, 2, m, 2, 3600);
  }
}
