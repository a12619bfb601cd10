/**
 * A record's headers: Kafka's `Headers`, an ordered list of (key, bytes) pairs
 * in which a key may occur several times. The object is owned by the record and
 * updated in place by the interceptors.
 */
module KafkaHeaders {
  import opened Wrappers
  import opened Utf8

  datatype Header = Header(key: string, value: seq<byte>)

  /** The headers whose key is not `key`, in their original order. */
  function Without(hs: seq<Header>, key: string): (r: seq<Header>)
    ensures |r| <= |hs|
    ensures forall h :: h in r <==> h in hs && h.key != key
  {
    if hs == [] then []
    else
      var init, last := hs[..|hs| - 1], hs[|hs| - 1];
      assert hs == init + [last];
      Without(init, key) + (if last.key == key then [] else [last])
  }

  /** The list after `remove(key)` and then `add(key, value)`. */
  function Put(hs: seq<Header>, key: string, value: seq<byte>): (r: seq<Header>)
    ensures |r| > 0 && r[|r| - 1] == Header(key, value)
    ensures r[..|r| - 1] == Without(hs, key)
  {
    Without(hs, key) + [Header(key, value)]
  }

  /** `lastHeader(key)`: the last header under `key`, scanning from the end; `None` stands for `null`. */
  function LastWithKey(hs: seq<Header>, key: string): (r: Option<Header>)
    ensures r.None? <==> forall i :: 0 <= i < |hs| ==> hs[i].key != key
    ensures r.Some? ==> r.value in hs && r.value.key == key
  {
    if hs == [] then None
    else if hs[|hs| - 1].key == key then Some(hs[|hs| - 1])
    else LastWithKey(hs[..|hs| - 1], key)
  }

  /** How many headers carry `key`. */
  function CountKey(hs: seq<Header>, key: string): nat {
    if hs == [] then 0
    else CountKey(hs[..|hs| - 1], key) + (if hs[|hs| - 1].key == key then 1 else 0)
  }

  lemma {:induction false} WithoutAppend(a: seq<Header>, b: seq<Header>, key: string)
    ensures Without(a + b, key) == Without(a, key) + Without(b, key)
    decreases |b|
  {
    if b != [] {
      var b', last := b[..|b| - 1], b[|b| - 1];
      assert (a + b)[..|a + b| - 1] == a + b';
      WithoutAppend(a, b', key);
    } else {
      assert a + b == a;
    }
  }

  /** Removing a key that no header carries changes nothing. */
  lemma {:induction false} WithoutAbsent(hs: seq<Header>, key: string)
    requires forall h :: h in hs ==> h.key != key
    ensures Without(hs, key) == hs
  {
    if hs != [] {
      var init, last := hs[..|hs| - 1], hs[|hs| - 1];
      assert hs == init + [last];
      WithoutAbsent(init, key);
    }
  }

  lemma {:induction false} CountKeyAbsent(hs: seq<Header>, key: string)
    requires forall i :: 0 <= i < |hs| ==> hs[i].key != key
    ensures CountKey(hs, key) == 0
  {
    if hs != [] {
      CountKeyAbsent(hs[..|hs| - 1], key);
    }
  }

  /** Removing one key does not change which header is last under another key. */
  lemma {:induction false} LastWithKeyWithout(hs: seq<Header>, key: string, other: string)
    requires other != key
    ensures LastWithKey(Without(hs, key), other) == LastWithKey(hs, other)
  {
    if hs != [] {
      var init, last := hs[..|hs| - 1], hs[|hs| - 1];
      LastWithKeyWithout(init, key, other);
      var w := Without(init, key);
      if last.key == key {
        assert Without(hs, key) == w;
      } else {
        assert Without(hs, key) == w + [last];
        assert (w + [last])[..|w|] == w;
      }
    }
  }

  class Headers {
    var entries: seq<Header>

    constructor (entries: seq<Header>)
      ensures this.entries == entries
    {
      this.entries := entries;
    }

    /** `remove(key)`: drops every header under `key`, walking the list once. */
    method Remove(key: string)
      modifies this
      ensures entries == Without(old(entries), key)
    {
      var kept: seq<Header> := [];
      var i := 0;
      while i < |entries|
        invariant 0 <= i <= |entries|
        invariant kept == Without(entries[..i], key)
      {
        assert entries[..i + 1][..i] == entries[..i];
        if entries[i].key != key {
          kept := kept + [entries[i]];
        }
        i := i + 1;
      }
      assert entries[..i] == entries;
      entries := kept;
    }

    /** `add(key, value)`: appends one header. */
    method Add(key: string, value: seq<byte>)
      modifies this
      ensures entries == old(entries) + [Header(key, value)]
    {
      entries := entries + [Header(key, value)];
    }
  }
}
