/**
 * `no.sysco.middleware.kafka.interceptor.zipkin.KafkaInterceptorPropagation`,
 * the older copy of the header codec. Its setter and getter follow the same
 * discipline as the current ones (charset looked up by name, same UTF-8), so
 * they are specified by the same `Put` and `Lookup`, and every lemma of module
 * `Propagation` holds of them too.
 */
module LegacyPropagation {
  import opened Wrappers
  import opened Utf8
  import opened KafkaHeaders
  import Propagation

  /** `HEADER_SETTER`: remove every header under `key`, then append `value` in UTF-8. */
  method HeaderSetter(carrier: Headers, key: string, value: string)
    modifies carrier
    ensures carrier.entries == Put(old(carrier.entries), key, Encode(value))
    ensures CountKey(carrier.entries, key) == 1
    ensures Without(carrier.entries, key) == Without(old(carrier.entries), key)
    ensures HeaderGetter(carrier, key) == Some(value)
  {
    carrier.Remove(key);
    carrier.Add(key, Encode(value));
    Propagation.SetterLeavesOneHeader(old(carrier.entries), key, Encode(value));
    Propagation.SetterKeepsOtherHeaders(old(carrier.entries), key, Encode(value));
    Propagation.SetterGetterRoundTrip(old(carrier.entries), key, value);
  }

  /** `HEADER_GETTER`: `None` (`null`) when no header carries `key`, else the last value, decoded. */
  function HeaderGetter(carrier: Headers, key: string): (r: Option<string>)
    reads carrier
    ensures r.None? <==> forall i :: 0 <= i < |carrier.entries| ==> carrier.entries[i].key != key
    ensures r.Some? ==> exists i :: 0 <= i < |carrier.entries| && carrier.entries[i].key == key
                                    && r.value == Decode(carrier.entries[i].value)
    ensures r == Propagation.Lookup(carrier.entries, key)
  {
    match LastWithKey(carrier.entries, key)
    case None => None
    case Some(h) => Some(Decode(h.value))
  }
}
