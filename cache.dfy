/**
 * The bot's in-memory cache (bot/utils/cache.py): a table from key to
 * (value, time stamped at the set call). The asyncio lock that serializes
 * calls is dropped: calls are modelled one after another. The clock is the
 * parameter `now` of Set.
 */
module Cache {
  import opened Wrappers

  /** A clock reading; the source stamps with the current UTC time. */
  type Time = int

  /** The dictionary `_cache`: key -> (value, fetched-at). */
  type Table<V> = map<string, (V, Time)>

  /** `dict.get(key)`: the stored pair, or None. */
  function Lookup<V>(t: Table<V>, key: string): (r: Option<(V, Time)>)
    ensures r.Some? <==> key in t
    ensures r.Some? ==> r.value == t[key]
  {
    if key in t then Some(t[key]) else None
  }

  /** The dictionary after `_cache[key] = (value, now)`. */
  function Store<V>(t: Table<V>, key: string, value: V, now: Time): (r: Table<V>)
    ensures key in r
    ensures r[key] == (value, now)
  {
    t[key := (value, now)]
  }

  class SimpleCache<V> {
    var entries: Table<V>

    constructor ()
      ensures entries == map[]
    {
      entries := map[];
    }

    /** Read the entry for `key`; changes nothing. */
    method Get(key: string) returns (r: Option<(V, Time)>)
      ensures r == Lookup(entries, key)
      ensures r.Some? <==> key in entries
    {
      if key in entries {
        r := Some(entries[key]);
      } else {
        r := None;
      }
    }

    /** Overwrite the entry for `key` with `value`, stamped `now`. */
    method Set(key: string, value: V, now: Time)
      modifies this
      ensures entries == Store(old(entries), key, value, now)
      ensures Lookup(entries, key) == Some((value, now))
      ensures forall k :: k != key ==> Lookup(entries, k) == Lookup(old(entries), k)
    {
      entries := entries[key := (value, now)];
    }
  }

  /** A fresh cache answers None for every key. */
  lemma EmptyCacheMisses<V>(key: string)
    ensures Lookup<V>(map[], key) == None
  {
  }

  /** Get after Set returns exactly the value and the clock value of that Set. */
  lemma LookupAfterStore<V>(t: Table<V>, key: string, value: V, now: Time)
    ensures Lookup(Store(t, key, value, now), key) == Some((value, now))
  {
  }

  /** Set leaves the entry of every other key as it was. */
  lemma StoreFrame<V>(t: Table<V>, key: string, value: V, now: Time, other: string)
    requires other != key
    ensures Lookup(Store(t, key, value, now), other) == Lookup(t, other)
  {
  }

  /** A second Set for the same key replaces the first one entirely. */
  lemma StoreOverwrites<V>(t: Table<V>, key: string, v1: V, t1: Time, v2: V, t2: Time)
    ensures Store(Store(t, key, v1, t1), key, v2, t2) == Store(t, key, v2, t2)
  {
  }

  /** One `set` call with the clock reading it saw. */
  datatype SetCall<V> = SetCall(key: string, value: V, now: Time)

  /** The table of a fresh cache after the given `set` calls, in order. */
  function History<V>(calls: seq<SetCall<V>>): (r: Table<V>)
    ensures calls == [] ==> r == map[]
    ensures calls != [] ==> Lookup(r, calls[|calls| - 1].key) == Some((calls[|calls| - 1].value, calls[|calls| - 1].now))
    decreases |calls|
  {
    if calls == [] then map[]
    else
      var last := calls[|calls| - 1];
      Store(History(calls[..|calls| - 1]), last.key, last.value, last.now)
  }

  /** The clock never runs backwards over the calls. */
  ghost predicate ClockNonDecreasing<V>(calls: seq<SetCall<V>>)
  {
    forall i, j :: 0 <= i <= j < |calls| ==> calls[i].now <= calls[j].now
  }

  /** Every stamp in the table is at most the clock value of the latest call. */
  lemma {:induction false} StampsAtMostLatestClock<V>(calls: seq<SetCall<V>>, key: string)
    requires ClockNonDecreasing(calls)
    requires key in History(calls)
    ensures calls != [] && History(calls)[key].1 <= calls[|calls| - 1].now
  {
    var n := |calls|;
    var prefix := calls[..n - 1];
    if key != calls[n - 1].key {
      assert key in History(prefix);
      assert ClockNonDecreasing(prefix) by {
        forall i, j | 0 <= i <= j < |prefix| ensures prefix[i].now <= prefix[j].now {
          assert prefix[i] == calls[i] && prefix[j] == calls[j];
        }
      }
      StampsAtMostLatestClock(prefix, key);
      assert prefix[|prefix| - 1] == calls[n - 2];
    }
  }

  /** One set keeps a present key, and does not lower its stamp when the clock has not gone back. */
  lemma StoreKeepsStamp<V>(t: Table<V>, c: SetCall<V>, key: string)
    requires key in t
    requires key == c.key ==> t[key].1 <= c.now
    ensures key in Store(t, c.key, c.value, c.now)
    ensures t[key].1 <= Store(t, c.key, c.value, c.now)[key].1
  {
  }

  /**
   * With a non-decreasing clock, once a key is present it stays present and its
   * timestamp never decreases across later `set` calls.
   */
  lemma {:induction false} TimestampNeverDecreases<V>(calls: seq<SetCall<V>>, i: nat, j: nat, key: string)
    requires ClockNonDecreasing(calls)
    requires i <= j <= |calls|
    requires key in History(calls[..i])
    ensures key in History(calls[..j])
    ensures History(calls[..i])[key].1 <= History(calls[..j])[key].1
  {
    if j > i {
      var before := calls[..j - 1];
      var upto := calls[..j];
      assert upto[..|upto| - 1] == before;
      assert before[..j - 1] == before;
      assert before[..i] == calls[..i];
      assert ClockNonDecreasing(before) by {
        forall a, b | 0 <= a <= b < j - 1 ensures before[a].now <= before[b].now {
          assert before[a] == calls[a] && before[b] == calls[b];
        }
      }
      TimestampNeverDecreases(before, i, j - 1, key);
      var last := upto[|upto| - 1];
      assert History(upto) == Store(History(before), last.key, last.value, last.now);
      if key == last.key {
        StampsAtMostLatestClock(before, key);
        assert before[j - 2] == calls[j - 2] && last == calls[j - 1];
      }
      StoreKeepsStamp(History(before), last, key);
    } else {
      assert calls[..j] == calls[..i];
    }
  }
}
