/**
 * `brave.kafka.interceptor.KafkaInterceptorPropagation`: the setter and getter
 * through which Brave's injector and extractor write and read trace context in
 * a record's headers.
 */
module Propagation {
  import opened Wrappers
  import opened Utf8
  import opened KafkaHeaders

  /** What the getter answers for a header list, read as UTF-8. */
  function Lookup(hs: seq<Header>, key: string): (r: Option<string>)
    ensures r.None? <==> forall i :: 0 <= i < |hs| ==> hs[i].key != key
  {
    match LastWithKey(hs, key)
    case None => None
    case Some(h) => Some(Decode(h.value))
  }

  /** `HEADER_SETTER`: removes every header under `key`, then appends `value` in UTF-8. */
  method HeaderSetter(carrier: Headers, key: string, value: string)
    modifies carrier
    ensures carrier.entries == Put(old(carrier.entries), key, Encode(value))
    ensures HeaderGetter(carrier, key) == Some(value)
  {
    carrier.Remove(key);
    carrier.Add(key, Encode(value));
    SetterGetterRoundTrip(old(carrier.entries), key, value);
  }

  /** `HEADER_GETTER`: the last value under `key`, decoded, or `None` (`null`) when there is none. */
  function HeaderGetter(carrier: Headers, key: string): (r: Option<string>)
    reads carrier
    ensures r.None? <==> forall i :: 0 <= i < |carrier.entries| ==> carrier.entries[i].key != key
    ensures r.Some? ==> exists i :: 0 <= i < |carrier.entries| && carrier.entries[i].key == key
                                    && r.value == Decode(carrier.entries[i].value)
  {
    Lookup(carrier.entries, key)
  }

  /** After the setter exactly one header carries `key`, and it is the last one. */
  lemma SetterLeavesOneHeader(hs: seq<Header>, key: string, value: seq<byte>)
    ensures CountKey(Put(hs, key, value), key) == 1
    ensures Put(hs, key, value)[|Put(hs, key, value)| - 1] == Header(key, value)
  {
    var p := Put(hs, key, value);
    assert p[..|p| - 1] == Without(hs, key);
    CountKeyAbsent(Without(hs, key), key);
  }

  /** The getter reads back what the setter wrote. */
  lemma SetterGetterRoundTrip(hs: seq<Header>, key: string, value: string)
    ensures Lookup(Put(hs, key, Encode(value)), key) == Some(value)
  {
    DecodeEncode(value);
  }

  /** The setter keeps every header under another key, in the original order. */
  lemma SetterKeepsOtherHeaders(hs: seq<Header>, key: string, value: seq<byte>)
    ensures Without(Put(hs, key, value), key) == Without(hs, key)
  {
    var w := Without(hs, key);
    WithoutAppend(w, [Header(key, value)], key);
    WithoutAbsent(w, key);
  }

  /** The setter does not change what the getter answers for another key. */
  lemma SetterKeepsOtherLookups(hs: seq<Header>, key: string, value: seq<byte>, other: string)
    requires other != key
    ensures Lookup(Put(hs, key, value), other) == Lookup(hs, other)
  {
    var w := Without(hs, key);
    LastWithKeyWithout(hs, key, other);
    assert (w + [Header(key, value)])[..|w|] == w;
  }

  /** With several headers under `key`, the getter answers with the last of them. */
  lemma {:induction false} GetterReadsLast(hs: seq<Header>, key: string, i: nat)
    requires i < |hs| && hs[i].key == key
    requires forall j :: i < j < |hs| ==> hs[j].key != key
    ensures Lookup(hs, key) == Some(Decode(hs[i].value))
    ensures LastWithKey(hs, key) == Some(hs[i])
  {
    if i < |hs| - 1 {
      GetterReadsLast(hs[..|hs| - 1], key, i);
    }
  }

  /** Setting the same value twice leaves the same headers as setting it once. */
  lemma SetterIdempotent(hs: seq<Header>, key: string, value: seq<byte>)
    ensures Put(Put(hs, key, value), key, value) == Put(hs, key, value)
  {
    SetterKeepsOtherHeaders(hs, key, value);
  }
}
