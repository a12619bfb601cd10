/**
 * The part of Brave that the interceptors call: trace contexts, the result of
 * an extraction, spans and how they are recorded, and a propagation format
 * that reads and writes headers through the getter and setter of module
 * `Propagation`. Brave's own B3 format, id generator and sampler are not part
 * of this model; they are parameters (`TracePropagation`, `Tracing.nextId`,
 * `counting`).
 */
module Brave {
  import opened Wrappers
  import opened Utf8
  import opened KafkaHeaders
  import P = Propagation
  import TB = TracingBuilder

  /** `TraceContext`: ids and the sampling decision, if one was made. */
  datatype TraceContext = TraceContext(traceId: nat, spanId: nat, parentId: Option<nat>, sampled: Option<bool>)

  /** `TraceContextOrSamplingFlags`: which of the three an extraction found. */
  datatype ExtractedKind =
    | Context(context: TraceContext)
    | TraceIdContext(traceId: nat, sampled: Option<bool>)
    | Flags(sampled: Option<bool>)

  /** An extraction, with the request-scoped fields (`extra`) found beside it. */
  datatype Extracted = Extracted(kind: ExtractedKind, extra: seq<string>)

  /**
   * A propagation format: the header keys it owns, the (key, value) pairs its
   * injector writes for a context, and what its extractor makes of the
   * getter's answers for its keys, in the order of `keys`.
   */
  datatype TracePropagation = TracePropagation(
    keys: seq<string>,
    inject: TraceContext -> seq<(string, string)>,
    extract: seq<Option<string>> -> Extracted)

  /** The getter's answers for each key. */
  function View(keys: seq<string>, entries: seq<Header>): (r: seq<Option<string>>)
    ensures |r| == |keys|
    ensures forall i :: 0 <= i < |keys| ==> r[i] == P.Lookup(entries, keys[i])
  {
    seq(|keys|, i requires 0 <= i < |keys| => P.Lookup(entries, keys[i]))
  }

  /** The value of the last pair under `key`, if there is one. */
  function LastPair(pairs: seq<(string, string)>, key: string): (r: Option<string>)
    ensures r.None? <==> forall i :: 0 <= i < |pairs| ==> pairs[i].0 != key
  {
    if |pairs| == 0 then None
    else if pairs[|pairs| - 1].0 == key then Some(pairs[|pairs| - 1].1)
    else LastPair(pairs[..|pairs| - 1], key)
  }

  /** What a getter over `pairs` answers for each key. */
  function PairsView(keys: seq<string>, pairs: seq<(string, string)>): (r: seq<Option<string>>)
    ensures |r| == |keys|
    ensures forall i :: 0 <= i < |keys| ==> r[i] == LastPair(pairs, keys[i])
  {
    seq(|keys|, i requires 0 <= i < |keys| => LastPair(pairs, keys[i]))
  }

  /** The getter's answers when no key is present. */
  function NoHeaders(n: nat): (r: seq<Option<string>>)
    ensures |r| == n && forall i :: 0 <= i < n ==> r[i].None?
  {
    seq(n, i => None)
  }

  /**
   * The laws a format such as B3 obeys: what its injector writes, its extractor
   * reads back as that very context with no extra fields; with none of its
   * headers present it extracts empty sampling flags; and it writes only under
   * its own keys.
   */
  ghost predicate Lawful(p: TracePropagation) {
    && (forall c {:trigger p.extract(PairsView(p.keys, p.inject(c)))} :: p.extract(PairsView(p.keys, p.inject(c))) == Extracted(Context(c), []))
    && p.extract(NoHeaders(|p.keys|)) == Extracted(Flags(None), [])
    && (forall c, i :: 0 <= i < |p.inject(c)| ==> p.inject(c)[i].0 in p.keys)
  }

  /** The headers after the setter was called for every pair, in order. */
  function PutAll(hs: seq<Header>, pairs: seq<(string, string)>): seq<Header> {
    if |pairs| == 0 then hs
    else
      var last := pairs[|pairs| - 1];
      Put(PutAll(hs, pairs[..|pairs| - 1]), last.0, Encode(last.1))
  }

  /** The headers after every key was removed, in order. */
  function WithoutAll(hs: seq<Header>, keys: seq<string>): (r: seq<Header>)
    ensures forall h :: h in r <==> h in hs && h.key !in keys
  {
    if |keys| == 0 then hs
    else Without(WithoutAll(hs, keys[..|keys| - 1]), keys[|keys| - 1])
  }

  lemma PutAllPrefix(hs: seq<Header>, pairs: seq<(string, string)>, i: nat)
    requires i < |pairs|
    ensures PutAll(hs, pairs[..i + 1]) == Put(PutAll(hs, pairs[..i]), pairs[i].0, Encode(pairs[i].1))
  {
    assert pairs[..i + 1][..i] == pairs[..i];
  }

  lemma WithoutAllPrefix(hs: seq<Header>, keys: seq<string>, i: nat)
    requires i < |keys|
    ensures WithoutAll(hs, keys[..i + 1]) == Without(WithoutAll(hs, keys[..i]), keys[i])
  {
    assert keys[..i + 1][..i] == keys[..i];
  }

  /** The getter reads the last pair written under a key, and otherwise what was there. */
  lemma {:induction false} LookupPutAll(hs: seq<Header>, pairs: seq<(string, string)>, key: string)
    ensures P.Lookup(PutAll(hs, pairs), key) ==
            if LastPair(pairs, key).Some? then LastPair(pairs, key) else P.Lookup(hs, key)
  {
    if |pairs| > 0 {
      var last := pairs[|pairs| - 1];
      var prev := PutAll(hs, pairs[..|pairs| - 1]);
      if last.0 == key {
        P.SetterGetterRoundTrip(prev, key, last.1);
      } else {
        P.SetterKeepsOtherLookups(prev, last.0, Encode(last.1), key);
        LookupPutAll(hs, pairs[..|pairs| - 1], key);
      }
    }
  }

  /** After the removal, the getter finds none of the removed keys. */
  lemma LookupWithoutAllRemoved(hs: seq<Header>, keys: seq<string>, key: string)
    requires key in keys
    ensures P.Lookup(WithoutAll(hs, keys), key) == None
  {
    var r := WithoutAll(hs, keys);
    forall i | 0 <= i < |r| ensures r[i].key != key {
      assert r[i] in r;
    }
  }

  /** The removal leaves what the getter answers for any other key. */
  lemma {:induction false} LookupWithoutAllKept(hs: seq<Header>, keys: seq<string>, key: string)
    requires key !in keys
    ensures P.Lookup(WithoutAll(hs, keys), key) == P.Lookup(hs, key)
  {
    if |keys| > 0 {
      var init := keys[..|keys| - 1];
      assert key !in init by { assert forall k :: k in init ==> k in keys; }
      LookupWithoutAllKept(hs, init, key);
      LastWithKeyWithout(WithoutAll(hs, init), keys[|keys| - 1], key);
    }
  }

  /** Injecting into headers that hold none of the keys makes the getter see exactly the pairs. */
  lemma InjectIntoClean(keys: seq<string>, hs: seq<Header>, pairs: seq<(string, string)>)
    requires forall i :: 0 <= i < |keys| ==> P.Lookup(hs, keys[i]).None?
    ensures View(keys, PutAll(hs, pairs)) == PairsView(keys, pairs)
  {
    forall i | 0 <= i < |keys| ensures View(keys, PutAll(hs, pairs))[i] == PairsView(keys, pairs)[i] {
      LookupPutAll(hs, pairs, keys[i]);
    }
  }

  /** Removing the keys and then injecting makes the getter see exactly the pairs. */
  lemma ReplaceThenView(keys: seq<string>, hs: seq<Header>, pairs: seq<(string, string)>)
    ensures View(keys, PutAll(WithoutAll(hs, keys), pairs)) == PairsView(keys, pairs)
  {
    forall i | 0 <= i < |keys| ensures P.Lookup(WithoutAll(hs, keys), keys[i]).None? {
      LookupWithoutAllRemoved(hs, keys, keys[i]);
    }
    InjectIntoClean(keys, WithoutAll(hs, keys), pairs);
  }

  /** Headers that hold none of the keys extract as empty sampling flags. */
  lemma CleanHeadersExtractFlags(p: TracePropagation, hs: seq<Header>)
    requires Lawful(p)
    requires forall i :: 0 <= i < |p.keys| ==> P.Lookup(hs, p.keys[i]).None?
    ensures p.extract(View(p.keys, hs)) == Extracted(Flags(None), [])
  {
    assert View(p.keys, hs) == NoHeaders(|p.keys|);
  }

  /** Injection after removal round-trips through the extractor, whatever the headers held before. */
  lemma InjectExtractRoundTrip(p: TracePropagation, hs: seq<Header>, c: TraceContext)
    requires Lawful(p)
    ensures p.extract(View(p.keys, PutAll(WithoutAll(hs, p.keys), p.inject(c)))) == Extracted(Context(c), [])
  {
    ReplaceThenView(p.keys, hs, p.inject(c));
  }

  /** Injection on headers that hold none of the keys round-trips too. */
  lemma InjectCleanExtractRoundTrip(p: TracePropagation, hs: seq<Header>, c: TraceContext)
    requires Lawful(p)
    requires forall i :: 0 <= i < |p.keys| ==> P.Lookup(hs, p.keys[i]).None?
    ensures p.extract(View(p.keys, PutAll(hs, p.inject(c)))) == Extracted(Context(c), [])
  {
    InjectIntoClean(p.keys, hs, p.inject(c));
  }

  /** A lawful injector leaves what the getter answers for every key it does not own. */
  lemma {:induction false} PutAllKeepsForeignKeys(hs: seq<Header>, pairs: seq<(string, string)>, key: string)
    requires forall i :: 0 <= i < |pairs| ==> pairs[i].0 != key
    ensures P.Lookup(PutAll(hs, pairs), key) == P.Lookup(hs, key)
  {
    LookupPutAll(hs, pairs, key);
  }

  /** Replacing the propagation headers leaves every header under another key readable as before. */
  lemma ReplaceKeepsForeignKeys(p: TracePropagation, hs: seq<Header>, c: TraceContext, key: string)
    requires Lawful(p)
    requires key !in p.keys
    ensures P.Lookup(PutAll(WithoutAll(hs, p.keys), p.inject(c)), key) == P.Lookup(hs, key)
  {
    PutAllKeepsForeignKeys(WithoutAll(hs, p.keys), p.inject(c), key);
    LookupWithoutAllKept(hs, p.keys, key);
  }

  datatype Kind = PRODUCER | CONSUMER

  /** A tag; `None` stands for a `null` value, which the model records as it is. */
  datatype Tag = Tag(key: string, value: Option<string>)

  /** What the interceptors set on a span before starting it. */
  datatype SpanInfo = SpanInfo(name: string, kind: Kind, remoteServiceName: string, tags: seq<Tag>)

  /** The tracer's record of a span being started or finished (reported). */
  datatype SpanEvent = Started(context: TraceContext, info: SpanInfo) | Finished(context: TraceContext)

  /** `brave.Span`: a context, and whether the span records anything. */
  datatype Span = Span(context: TraceContext, noop: bool)

  /** The sampling decision: the one already made upstream, else the sampler's. */
  function Decide(known: Option<bool>, sampler: nat -> bool, traceId: nat): bool {
    match known
    case Some(b) => b
    case None => sampler(traceId)
  }

  /**
   * `Tracer.nextSpan(extracted)` with `id` as the new span id: a child of an
   * extracted context, a span in an extracted trace, or the root of a new trace.
   */
  function NewSpan(extracted: Extracted, id: nat, noopTracing: bool, sampler: nat -> bool): (s: Span)
    ensures s.context.spanId == id && s.context.sampled.Some?
    ensures extracted.kind.Context? ==>
              && s.context.traceId == extracted.kind.context.traceId
              && s.context.parentId == Some(extracted.kind.context.spanId)
    ensures extracted.kind.Context? && extracted.kind.context.sampled.Some? ==>
              s.context.sampled == extracted.kind.context.sampled
    ensures extracted.kind.TraceIdContext? ==>
              s.context.traceId == extracted.kind.traceId && s.context.parentId.None?
    ensures extracted.kind.Flags? ==> s.context.traceId == id && s.context.parentId.None?
    ensures s.noop <==> noopTracing || s.context.sampled == Some(false)
  {
    match extracted.kind
    case Context(parent) =>
      var sampled := Decide(parent.sampled, sampler, parent.traceId);
      Span(TraceContext(parent.traceId, id, Some(parent.spanId), Some(sampled)), noopTracing || !sampled)
    case TraceIdContext(traceId, known) =>
      var sampled := Decide(known, sampler, traceId);
      Span(TraceContext(traceId, id, None, Some(sampled)), noopTracing || !sampled)
    case Flags(known) =>
      var sampled := Decide(known, sampler, id);
      Span(TraceContext(id, id, None, Some(sampled)), noopTracing || !sampled)
  }

  /**
   * `Sampler.create(rate)` for a rate `TracingBuilder.CreateSampler` accepts:
   * never at 0, always at 1, otherwise the counting sampler's decision.
   */
  function SamplerOf(rate: real, counting: nat -> bool): (s: nat -> bool)
    ensures rate == 0.0 ==> forall t :: !s(t)
    ensures rate == 1.0 ==> forall t :: s(t)
  {
    if rate == 0.0 then (t: nat) => false
    else if rate == 1.0 then (t: nat) => true
    else counting
  }

  /** What `start` records: nothing for a no-op span. */
  function StartEvents(span: Span, info: SpanInfo): (r: seq<SpanEvent>)
    ensures span.noop <==> r == []
  {
    if span.noop then [] else [Started(span.context, info)]
  }

  /** What `finish` records: nothing for a no-op span. */
  function FinishEvents(span: Span): (r: seq<SpanEvent>)
    ensures span.noop <==> r == []
  {
    if span.noop then [] else [Finished(span.context)]
  }

  /**
   * `brave.Tracing`: what `TracingBuilder.build` assembled, its propagation, the
   * `noop` switch, the next span id, and the events spans have recorded so far.
   */
  class Tracing {
    const settings: TB.Tracing
    const propagation: TracePropagation
    const noop: bool
    const sampler: nat -> bool
    var nextId: nat
    var log: seq<SpanEvent>

    constructor (settings: TB.Tracing, propagation: TracePropagation, noop: bool, counting: nat -> bool)
      ensures this.settings == settings && this.propagation == propagation && this.noop == noop
      ensures sampler == SamplerOf(settings.samplerRate, counting)
      ensures nextId == 1 && log == []
    {
      this.settings := settings;
      this.propagation := propagation;
      this.noop := noop;
      this.sampler := SamplerOf(settings.samplerRate, counting);
      nextId := 1;
      log := [];
    }

    /** `tracer().nextSpan(extracted)`: takes the next id. */
    method NextSpan(extracted: Extracted) returns (span: Span)
      modifies this
      ensures span == NewSpan(extracted, old(nextId), noop, sampler)
      ensures nextId == old(nextId) + 1 && log == old(log)
    {
      span := NewSpan(extracted, nextId, noop, sampler);
      nextId := nextId + 1;
    }

    /** `span.start()` after naming and tagging it. */
    method Start(span: Span, info: SpanInfo)
      modifies this
      ensures log == old(log) + StartEvents(span, info) && nextId == old(nextId)
    {
      log := log + StartEvents(span, info);
    }

    /** `span.finish()`: the span is reported. */
    method Finish(span: Span)
      modifies this
      ensures log == old(log) + FinishEvents(span) && nextId == old(nextId)
    {
      log := log + FinishEvents(span);
    }
  }

  /** `extractor.extract(headers)`: the extractor reads its keys through the getter. */
  function Extract(p: TracePropagation, carrier: Headers): (r: Extracted)
    reads carrier
    ensures r == p.extract(View(p.keys, carrier.entries))
  {
    var answers := seq(|p.keys|, i reads carrier requires 0 <= i < |p.keys| => P.HeaderGetter(carrier, p.keys[i]));
    assert answers == View(p.keys, carrier.entries);
    p.extract(answers)
  }

  /** `injector.inject(context, headers)`: the setter is called once per pair, in order. */
  method Inject(p: TracePropagation, context: TraceContext, carrier: Headers)
    modifies carrier
    ensures carrier.entries == PutAll(old(carrier.entries), p.inject(context))
  {
    var pairs := p.inject(context);
    var i := 0;
    while i < |pairs|
      invariant 0 <= i <= |pairs|
      invariant carrier.entries == PutAll(old(carrier.entries), pairs[..i])
    {
      PutAllPrefix(old(carrier.entries), pairs, i);
      P.HeaderSetter(carrier, pairs[i].0, pairs[i].1);
      i := i + 1;
    }
    assert pairs[..i] == pairs;
  }

  /** `propagation().keys().forEach(key -> headers.remove(key))`. */
  method RemoveKeys(keys: seq<string>, carrier: Headers)
    modifies carrier
    ensures carrier.entries == WithoutAll(old(carrier.entries), keys)
  {
    var i := 0;
    while i < |keys|
      invariant 0 <= i <= |keys|
      invariant carrier.entries == WithoutAll(old(carrier.entries), keys[..i])
    {
      WithoutAllPrefix(old(carrier.entries), keys, i);
      carrier.Remove(keys[i]);
      i := i + 1;
    }
    assert keys[..i] == keys;
  }
}
