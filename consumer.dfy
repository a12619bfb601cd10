/**
 * `brave.kafka.interceptor.TracingConsumerInterceptor`: on every batch polled,
 * give each record a span. A record whose headers carry a context or extra
 * fields gets its own `on_consume` span, started and finished at once; the
 * other records of a topic share one `poll` span, finished after the batch.
 * Either way the record's headers end up carrying the span's context.
 *
 * The effect of a batch is specified by `Consume`, a fold of `Step` over the
 * records in iteration order. Its state maps every `Headers` object of the
 * batch to its entries, so a record that occurs several times in a batch (or
 * records sharing one `Headers` object) sees what earlier visits wrote.
 */
module Consumer {
  import opened Wrappers
  import opened KafkaHeaders
  import opened Configuration
  import TB = TracingBuilder
  import opened Brave
  import Tags = KafkaInterceptorTagKey
  import P = Propagation

  const SpanName := "on_consume"
  const PollSpanName := "poll"

  /** `ConsumerRecord`: only its headers change once it exists. */
  class ConsumerRecord {
    const topic: string
    const partition: int
    const headers: Headers

    constructor (topic: string, partition: int, headers: Headers)
      ensures this.topic == topic && this.partition == partition && this.headers == headers
    {
      this.topic := topic;
      this.partition := partition;
      this.headers := headers;
    }
  }

  datatype TopicPartition = TopicPartition(topic: string, partition: int)

  /** One entry of `ConsumerRecords`: a partition and its records, in offset order. */
  datatype PartitionRecords = PartitionRecords(partition: TopicPartition, records: seq<ConsumerRecord>)

  /** `ConsumerRecords`: the partitions in iteration order. */
  datatype ConsumerRecords = ConsumerRecords(partitions: seq<PartitionRecords>) {
    /** `isEmpty`: no partition at all. */
    predicate IsEmpty() {
      |partitions| == 0
    }
  }

  /** Every `Headers` object the batch reaches. */
  function HeadersOf(records: ConsumerRecords): set<Headers> {
    set p, rec | p in records.partitions && rec in p.records :: rec.headers
  }

  /** The entries of every `Headers` object of the batch. */
  function Snapshot(records: ConsumerRecords): (store: map<Headers, seq<Header>>)
    reads HeadersOf(records)
    ensures store.Keys == HeadersOf(records)
    ensures forall h :: h in HeadersOf(records) ==> store[h] == h.entries
  {
    map h | h in HeadersOf(records) :: h.entries
  }

  /** What `onConsume` depends on besides the batch; see `Producer.SendEnv`. */
  datatype ConsumeEnv = ConsumeEnv(
    propagation: TracePropagation,
    keys: seq<string>,
    noop: bool,
    sampler: nat -> bool,
    remoteServiceName: string,
    groupId: Option<string>,
    clientId: Option<string>)

  /**
   * The state `onConsume` works on: the entries of every `Headers` object, the
   * tracer's next id and events, and the shared `poll` span of each topic, in
   * the order the topics were first seen (the `LinkedHashMap`).
   */
  datatype ConsumeState = ConsumeState(
    store: map<Headers, seq<Header>>,
    nextId: nat,
    log: seq<SpanEvent>,
    shared: seq<(string, Span)>)

  /** The tags of both kinds of consumer span. */
  function ConsumeTags(topic: string, env: ConsumeEnv): seq<Tag> {
    [Tag(Tags.KafkaTopic, Some(topic)), Tag(Tags.KafkaGroupId, env.groupId), Tag(Tags.KafkaClientId, env.clientId)]
  }

  /** `consumerSpansForTopic.get(topic)`. */
  function FindShared(shared: seq<(string, Span)>, topic: string): (r: Option<Span>)
    ensures r.None? <==> forall i :: 0 <= i < |shared| ==> shared[i].0 != topic
    ensures r.Some? ==> exists i :: 0 <= i < |shared| && shared[i] == (topic, r.value)
  {
    if |shared| == 0 then None
    else if shared[0].0 == topic then Some(shared[0].1)
    else
      var r := FindShared(shared[1..], topic);
      assert r.Some? ==> exists i :: 0 <= i < |shared[1..]| && shared[1..][i] == (topic, r.value);
      r
  }

  /** Whether an extraction found neither a context nor extra fields, so the topic's span can be shared. */
  predicate Shareable(extracted: Extracted) {
    extracted.kind.Flags? && extracted.extra == []
  }

  /** The body of the inner loop of `onConsume`, for one record of topic `topic`. */
  function Step(env: ConsumeEnv, st: ConsumeState, topic: string, record: ConsumerRecord): (r: ConsumeState)
    requires record.headers in st.store
    ensures r.store.Keys == st.store.Keys
    ensures forall h :: h in st.store && h != record.headers ==> r.store[h] == st.store[h]
  {
    var entries := st.store[record.headers];
    var extracted := env.propagation.extract(View(env.propagation.keys, entries));
    if Shareable(extracted) then
      match FindShared(st.shared, topic)
      case Some(span) =>
        // the headers keep what they had, since nothing could be read from them
        st.(store := st.store[record.headers := PutAll(entries, env.propagation.inject(span.context))])
      case None =>
        var span := NewSpan(extracted, st.nextId, env.noop, env.sampler);
        var info := SpanInfo(PollSpanName, CONSUMER, env.remoteServiceName, ConsumeTags(topic, env));
        ConsumeState(st.store[record.headers := PutAll(entries, env.propagation.inject(span.context))],
                     st.nextId + 1, st.log + StartEvents(span, info), st.shared + [(topic, span)])
    else
      var span := NewSpan(extracted, st.nextId, env.noop, env.sampler);
      var info := SpanInfo(SpanName, CONSUMER, env.remoteServiceName, ConsumeTags(topic, env));
      var events := if span.noop then [] else [Started(span.context, info), Finished(span.context)];
      st.(store := st.store[record.headers := PutAll(WithoutAll(entries, env.keys), env.propagation.inject(span.context))],
          nextId := st.nextId + 1, log := st.log + events)
  }

  /** `Step` on a record that opens its topic's shared span. */
  lemma StepOpensShared(env: ConsumeEnv, st: ConsumeState, topic: string, record: ConsumerRecord)
    requires record.headers in st.store
    requires Shareable(env.propagation.extract(View(env.propagation.keys, st.store[record.headers])))
    requires FindShared(st.shared, topic).None?
    ensures var entries := st.store[record.headers];
      var span := NewSpan(env.propagation.extract(View(env.propagation.keys, entries)), st.nextId, env.noop, env.sampler);
      var info := SpanInfo(PollSpanName, CONSUMER, env.remoteServiceName, ConsumeTags(topic, env));
      Step(env, st, topic, record) == ConsumeState(st.store[record.headers := PutAll(entries, env.propagation.inject(span.context))],
                                                   st.nextId + 1, st.log + StartEvents(span, info), st.shared + [(topic, span)])
  {
  }

  /** `Step` on a record that joins its topic's shared span. */
  lemma StepJoinsShared(env: ConsumeEnv, st: ConsumeState, topic: string, record: ConsumerRecord)
    requires record.headers in st.store
    requires Shareable(env.propagation.extract(View(env.propagation.keys, st.store[record.headers])))
    requires FindShared(st.shared, topic).Some?
    ensures var entries := st.store[record.headers];
      Step(env, st, topic, record)
        == st.(store := st.store[record.headers := PutAll(entries, env.propagation.inject(FindShared(st.shared, topic).value.context))])
  {
  }

  /** `Step` on a record that gets its own span. */
  lemma StepOwnSpan(env: ConsumeEnv, st: ConsumeState, topic: string, record: ConsumerRecord)
    requires record.headers in st.store
    requires !Shareable(env.propagation.extract(View(env.propagation.keys, st.store[record.headers])))
    ensures var entries := st.store[record.headers];
      var span := NewSpan(env.propagation.extract(View(env.propagation.keys, entries)), st.nextId, env.noop, env.sampler);
      var info := SpanInfo(SpanName, CONSUMER, env.remoteServiceName, ConsumeTags(topic, env));
      Step(env, st, topic, record)
        == st.(store := st.store[record.headers := PutAll(WithoutAll(entries, env.keys), env.propagation.inject(span.context))],
               nextId := st.nextId + 1,
               log := st.log + (if span.noop then [] else [Started(span.context, info), Finished(span.context)]))
  {
  }

  /** The inner loop: `Step` over the records of one partition, in order. */
  function RunRecords(env: ConsumeEnv, st: ConsumeState, topic: string, recs: seq<ConsumerRecord>): (r: ConsumeState)
    requires forall rec :: rec in recs ==> rec.headers in st.store
    ensures r.store.Keys == st.store.Keys
  {
    if |recs| == 0 then st
    else
      var prev := RunRecords(env, st, topic, recs[..|recs| - 1]);
      Step(env, prev, topic, recs[|recs| - 1])
  }

  /** The outer loop: `RunRecords` over the partitions, in order. */
  function RunPartitions(env: ConsumeEnv, st: ConsumeState, parts: seq<PartitionRecords>): (r: ConsumeState)
    requires forall p, rec :: p in parts && rec in p.records ==> rec.headers in st.store
    ensures r.store.Keys == st.store.Keys
  {
    if |parts| == 0 then st
    else
      var last := parts[|parts| - 1];
      var prev := RunPartitions(env, st, parts[..|parts| - 1]);
      RunRecords(env, prev, last.partition.topic, last.records)
  }

  /** The last loop of `onConsume`: what finishing every shared span records. */
  function FinishShared(shared: seq<(string, Span)>): seq<SpanEvent> {
    if |shared| == 0 then []
    else FinishShared(shared[..|shared| - 1]) + FinishEvents(shared[|shared| - 1].1)
  }

  /**
   * `onConsume` on a batch, from headers `store`, next id `nextId` and events
   * `log`: nothing happens for an empty batch or a no-op tracer.
   */
  function Consume(env: ConsumeEnv, records: ConsumerRecords, store: map<Headers, seq<Header>>,
                   nextId: nat, log: seq<SpanEvent>): (r: ConsumeState)
    requires HeadersOf(records) <= store.Keys
    ensures r.store.Keys == store.Keys
    ensures records.IsEmpty() || env.noop ==> r == ConsumeState(store, nextId, log, [])
  {
    if records.IsEmpty() || env.noop then ConsumeState(store, nextId, log, [])
    else
      var st := RunPartitions(env, ConsumeState(store, nextId, log, []), records.partitions);
      st.(log := st.log + FinishShared(st.shared))
  }

  // ---------------------------------------------------------------------------
  // One shared span per topic

  ghost predicate DistinctTopics(shared: seq<(string, Span)>) {
    forall i, j :: 0 <= i < j < |shared| ==> shared[i].0 != shared[j].0
  }

  lemma StepKeepsTopicsDistinct(env: ConsumeEnv, st: ConsumeState, topic: string, record: ConsumerRecord)
    requires record.headers in st.store && DistinctTopics(st.shared)
    ensures DistinctTopics(Step(env, st, topic, record).shared)
  {
  }

  lemma {:induction false} RunRecordsKeepsTopicsDistinct(env: ConsumeEnv, st: ConsumeState, topic: string, recs: seq<ConsumerRecord>)
    requires forall rec :: rec in recs ==> rec.headers in st.store
    requires DistinctTopics(st.shared)
    ensures DistinctTopics(RunRecords(env, st, topic, recs).shared)
  {
    if |recs| > 0 {
      RunRecordsKeepsTopicsDistinct(env, st, topic, recs[..|recs| - 1]);
      StepKeepsTopicsDistinct(env, RunRecords(env, st, topic, recs[..|recs| - 1]), topic, recs[|recs| - 1]);
    }
  }

  /** A batch opens at most one shared `poll` span per topic. */
  lemma {:induction false} RunPartitionsKeepsTopicsDistinct(env: ConsumeEnv, st: ConsumeState, parts: seq<PartitionRecords>)
    requires forall p, rec :: p in parts && rec in p.records ==> rec.headers in st.store
    requires DistinctTopics(st.shared)
    ensures DistinctTopics(RunPartitions(env, st, parts).shared)
  {
    if |parts| > 0 {
      var last := parts[|parts| - 1];
      RunPartitionsKeepsTopicsDistinct(env, st, parts[..|parts| - 1]);
      RunRecordsKeepsTopicsDistinct(env, RunPartitions(env, st, parts[..|parts| - 1]), last.partition.topic, last.records);
    }
  }

  // ---------------------------------------------------------------------------
  // Every span started is finished

  function StartedOf(events: seq<SpanEvent>): multiset<TraceContext> {
    if |events| == 0 then multiset{}
    else
      var last := events[|events| - 1];
      StartedOf(events[..|events| - 1]) + if last.Started? then multiset{last.context} else multiset{}
  }

  function FinishedOf(events: seq<SpanEvent>): multiset<TraceContext> {
    if |events| == 0 then multiset{}
    else
      var last := events[|events| - 1];
      FinishedOf(events[..|events| - 1]) + if last.Finished? then multiset{last.context} else multiset{}
  }

  /** The contexts of the shared spans that record something. */
  function LiveOf(shared: seq<(string, Span)>): multiset<TraceContext> {
    if |shared| == 0 then multiset{}
    else
      var last := shared[|shared| - 1].1;
      LiveOf(shared[..|shared| - 1]) + if last.noop then multiset{} else multiset{last.context}
  }

  /** Every span started so far has been finished. */
  ghost predicate Balanced(events: seq<SpanEvent>) {
    StartedOf(events) == FinishedOf(events)
  }

  /** Every span started so far has been finished, or is a shared span still open. */
  ghost predicate Accounted(st: ConsumeState) {
    StartedOf(st.log) == FinishedOf(st.log) + LiveOf(st.shared)
  }

  lemma {:induction false} EventsAppend(a: seq<SpanEvent>, b: seq<SpanEvent>)
    ensures StartedOf(a + b) == StartedOf(a) + StartedOf(b)
    ensures FinishedOf(a + b) == FinishedOf(a) + FinishedOf(b)
  {
    if |b| > 0 {
      assert (a + b)[..|a + b| - 1] == a + b[..|b| - 1];
      EventsAppend(a, b[..|b| - 1]);
    } else {
      assert a + b == a;
    }
  }

  lemma {:induction false} LiveAppend(a: seq<(string, Span)>, b: seq<(string, Span)>)
    ensures LiveOf(a + b) == LiveOf(a) + LiveOf(b)
  {
    if |b| > 0 {
      assert (a + b)[..|a + b| - 1] == a + b[..|b| - 1];
      LiveAppend(a, b[..|b| - 1]);
    } else {
      assert a + b == a;
    }
  }

  lemma OneEvent(e: SpanEvent)
    ensures StartedOf([e]) == if e.Started? then multiset{e.context} else multiset{}
    ensures FinishedOf([e]) == if e.Finished? then multiset{e.context} else multiset{}
  {
    assert [e][..0] == [];
  }

  lemma OneShared(x: (string, Span))
    ensures LiveOf([x]) == if x.1.noop then multiset{} else multiset{x.1.context}
  {
    assert [x][..0] == [];
  }

  /** Events that account for themselves, added to an accounted state, keep it accounted. */
  lemma AccountedAfter(st: ConsumeState, events: seq<SpanEvent>, added: seq<(string, Span)>)
    requires Accounted(st)
    requires StartedOf(events) == FinishedOf(events) + LiveOf(added)
    ensures Accounted(st.(log := st.log + events, shared := st.shared + added))
  {
    EventsAppend(st.log, events);
    LiveAppend(st.shared, added);
  }

  /** Finishing the shared spans records exactly the open ones, and starts nothing. */
  lemma {:induction false} FinishSharedCloses(shared: seq<(string, Span)>)
    ensures StartedOf(FinishShared(shared)) == multiset{}
    ensures FinishedOf(FinishShared(shared)) == LiveOf(shared)
  {
    if |shared| > 0 {
      var init, last := shared[..|shared| - 1], shared[|shared| - 1].1;
      FinishSharedCloses(init);
      EventsAppend(FinishShared(init), FinishEvents(last));
      if !last.noop {
        OneEvent(Finished(last.context));
      }
    }
  }

  lemma StepAccounted(env: ConsumeEnv, st: ConsumeState, topic: string, record: ConsumerRecord)
    requires record.headers in st.store && Accounted(st)
    ensures Accounted(Step(env, st, topic, record))
  {
    var entries := st.store[record.headers];
    var extracted := env.propagation.extract(View(env.propagation.keys, entries));
    var r := Step(env, st, topic, record);
    var span := NewSpan(extracted, st.nextId, env.noop, env.sampler);
    if Shareable(extracted) {
      if FindShared(st.shared, topic).None? {
        var info := SpanInfo(PollSpanName, CONSUMER, env.remoteServiceName, ConsumeTags(topic, env));
        assert r.log == st.log + StartEvents(span, info) && r.shared == st.shared + [(topic, span)];
        OneShared((topic, span));
        if !span.noop {
          OneEvent(Started(span.context, info));
        }
        AccountedAfter(st, StartEvents(span, info), [(topic, span)]);
      } else {
        assert r.log == st.log && r.shared == st.shared;
      }
    } else {
      var info := SpanInfo(SpanName, CONSUMER, env.remoteServiceName, ConsumeTags(topic, env));
      var events := if span.noop then [] else [Started(span.context, info), Finished(span.context)];
      assert r.log == st.log + events && r.shared == st.shared + [];
      if !span.noop {
        OneEvent(Started(span.context, info));
        OneEvent(Finished(span.context));
        EventsAppend([Started(span.context, info)], [Finished(span.context)]);
      }
      AccountedAfter(st, events, []);
    }
  }

  lemma {:induction false} RunRecordsAccounted(env: ConsumeEnv, st: ConsumeState, topic: string, recs: seq<ConsumerRecord>)
    requires forall rec :: rec in recs ==> rec.headers in st.store
    requires Accounted(st)
    ensures Accounted(RunRecords(env, st, topic, recs))
  {
    if |recs| > 0 {
      RunRecordsAccounted(env, st, topic, recs[..|recs| - 1]);
      StepAccounted(env, RunRecords(env, st, topic, recs[..|recs| - 1]), topic, recs[|recs| - 1]);
    }
  }

  lemma {:induction false} RunPartitionsAccounted(env: ConsumeEnv, st: ConsumeState, parts: seq<PartitionRecords>)
    requires forall p, rec :: p in parts && rec in p.records ==> rec.headers in st.store
    requires Accounted(st)
    ensures Accounted(RunPartitions(env, st, parts))
  {
    if |parts| > 0 {
      var last := parts[|parts| - 1];
      RunPartitionsAccounted(env, st, parts[..|parts| - 1]);
      RunRecordsAccounted(env, RunPartitions(env, st, parts[..|parts| - 1]), last.partition.topic, last.records);
    }
  }

  /** After a batch every span it started has been finished, each exactly once. */
  lemma ConsumeFinishesEverySpan(env: ConsumeEnv, records: ConsumerRecords, store: map<Headers, seq<Header>>,
                                 nextId: nat, log: seq<SpanEvent>)
    requires HeadersOf(records) <= store.Keys
    requires Balanced(log)
    ensures Balanced(Consume(env, records, store, nextId, log).log)
  {
    if !(records.IsEmpty() || env.noop) {
      var init := ConsumeState(store, nextId, log, []);
      var st := RunPartitions(env, init, records.partitions);
      RunPartitionsAccounted(env, init, records.partitions);
      FinishSharedCloses(st.shared);
      EventsAppend(st.log, FinishShared(st.shared));
    }
  }

  // ---------------------------------------------------------------------------
  // What a record carries afterwards

  /** A record that gets its own span carries that span's context, a child of what it carried before. */
  lemma OwnSpanIsCarried(env: ConsumeEnv, st: ConsumeState, topic: string, record: ConsumerRecord)
    requires Lawful(env.propagation) && env.keys == env.propagation.keys
    requires record.headers in st.store
    requires !Shareable(env.propagation.extract(View(env.keys, st.store[record.headers])))
    ensures var r := Step(env, st, topic, record);
      var c := NewSpan(env.propagation.extract(View(env.keys, st.store[record.headers])), st.nextId, env.noop, env.sampler).context;
      && env.propagation.extract(View(env.keys, r.store[record.headers])) == Extracted(Context(c), [])
      && r.nextId == st.nextId + 1 && r.shared == st.shared
  {
    var span := NewSpan(env.propagation.extract(View(env.keys, st.store[record.headers])), st.nextId, env.noop, env.sampler);
    InjectExtractRoundTrip(env.propagation, st.store[record.headers], span.context);
  }

  /** A record without propagation headers carries the topic's shared span, which its topic then has. */
  lemma SharedSpanIsCarried(env: ConsumeEnv, st: ConsumeState, topic: string, record: ConsumerRecord)
    requires Lawful(env.propagation) && env.keys == env.propagation.keys
    requires record.headers in st.store
    requires forall i :: 0 <= i < |env.keys| ==> P.Lookup(st.store[record.headers], env.keys[i]).None?
    ensures var r := Step(env, st, topic, record);
      && FindShared(r.shared, topic).Some?
      && env.propagation.extract(View(env.keys, r.store[record.headers]))
         == Extracted(Context(FindShared(r.shared, topic).value.context), [])
  {
    var entries := st.store[record.headers];
    CleanHeadersExtractFlags(env.propagation, entries);
    var r := Step(env, st, topic, record);
    if FindShared(st.shared, topic).None? {
      assert r.shared == st.shared + [(topic, r.shared[|r.shared| - 1].1)];
      assert FindShared(r.shared, topic) == Some(r.shared[|r.shared| - 1].1) by {
        FindSharedAppend(st.shared, topic, r.shared[|r.shared| - 1].1);
      }
    }
    InjectCleanExtractRoundTrip(env.propagation, entries, FindShared(r.shared, topic).value.context);
  }

  lemma {:induction false} FindSharedAppend(shared: seq<(string, Span)>, topic: string, span: Span)
    requires FindShared(shared, topic).None?
    ensures FindShared(shared + [(topic, span)], topic) == Some(span)
  {
    if |shared| > 0 {
      assert (shared + [(topic, span)])[1..] == shared[1..] + [(topic, span)];
      FindSharedAppend(shared[1..], topic, span);
    }
  }

  lemma RunRecordsPrefix(env: ConsumeEnv, st: ConsumeState, topic: string, recs: seq<ConsumerRecord>, k: nat)
    requires k < |recs|
    requires forall rec :: rec in recs ==> rec.headers in st.store
    ensures RunRecords(env, st, topic, recs[..k + 1]) == Step(env, RunRecords(env, st, topic, recs[..k]), topic, recs[k])
  {
    assert recs[..k + 1][..k] == recs[..k];
  }

  lemma RunPartitionsPrefix(env: ConsumeEnv, st: ConsumeState, parts: seq<PartitionRecords>, k: nat)
    requires k < |parts|
    requires forall p, rec :: p in parts && rec in p.records ==> rec.headers in st.store
    ensures RunPartitions(env, st, parts[..k + 1])
            == RunRecords(env, RunPartitions(env, st, parts[..k]), parts[k].partition.topic, parts[k].records)
  {
    assert parts[..k + 1][..k] == parts[..k];
  }

  /** A first record without propagation headers opens its topic's `poll` span, `r`, and carries it. */
  lemma FirstVisitOpensPoll(env: ConsumeEnv, st: ConsumeState, topic: string, record: ConsumerRecord)
    returns (r: ConsumeState)
    requires Lawful(env.propagation) && env.keys == env.propagation.keys
    requires !env.noop && env.sampler(st.nextId)
    requires record.headers in st.store && st.shared == []
    requires forall i :: 0 <= i < |env.keys| ==> P.Lookup(st.store[record.headers], env.keys[i]).None?
    ensures Step(env, st, topic, record) == r && record.headers in r.store
    ensures var c := TraceContext(st.nextId, st.nextId, None, Some(true));
      && env.propagation.extract(View(env.keys, r.store[record.headers])) == Extracted(Context(c), [])
      && r.nextId == st.nextId + 1
      && r.log == st.log + [Started(c, SpanInfo(PollSpanName, CONSUMER, env.remoteServiceName, ConsumeTags(topic, env)))]
      && r.shared == [(topic, Span(c, false))]
  {
    var c := TraceContext(st.nextId, st.nextId, None, Some(true));
    OpenPollStep(env, st, topic, record);
    SharedSpanIsCarried(env, st, topic, record);
    r := Step(env, st, topic, record);
    assert FindShared(r.shared, topic) == Some(Span(c, false));
  }

  lemma OpenPollStep(env: ConsumeEnv, st: ConsumeState, topic: string, record: ConsumerRecord)
    requires Lawful(env.propagation) && env.keys == env.propagation.keys
    requires !env.noop && env.sampler(st.nextId)
    requires record.headers in st.store && st.shared == []
    requires forall i :: 0 <= i < |env.keys| ==> P.Lookup(st.store[record.headers], env.keys[i]).None?
    ensures var c := TraceContext(st.nextId, st.nextId, None, Some(true));
      var poll := SpanInfo(PollSpanName, CONSUMER, env.remoteServiceName, ConsumeTags(topic, env));
      Step(env, st, topic, record) == ConsumeState(
        st.store[record.headers := PutAll(st.store[record.headers], env.propagation.inject(c))],
        st.nextId + 1, st.log + [Started(c, poll)], [(topic, Span(c, false))])
  {
    CleanHeadersExtractFlags(env.propagation, st.store[record.headers]);
  }

  /** A record carrying a sampled context `c` gets a child `on_consume` span, started, finished and carried. */
  lemma VisitWithContext(env: ConsumeEnv, st: ConsumeState, topic: string, record: ConsumerRecord, c: TraceContext)
    returns (r: ConsumeState)
    requires Lawful(env.propagation) && env.keys == env.propagation.keys
    requires !env.noop && c.sampled == Some(true)
    requires record.headers in st.store
    requires env.propagation.extract(View(env.keys, st.store[record.headers])) == Extracted(Context(c), [])
    ensures Step(env, st, topic, record) == r && record.headers in r.store
    ensures var child := TraceContext(c.traceId, st.nextId, Some(c.spanId), Some(true));
      && env.propagation.extract(View(env.keys, r.store[record.headers])) == Extracted(Context(child), [])
      && r.nextId == st.nextId + 1
      && r.log == st.log + [Started(child, SpanInfo(SpanName, CONSUMER, env.remoteServiceName, ConsumeTags(topic, env))),
                            Finished(child)]
      && r.shared == st.shared
  {
    InjectExtractRoundTrip(env.propagation, st.store[record.headers],
                           TraceContext(c.traceId, st.nextId, Some(c.spanId), Some(true)));
    r := Step(env, st, topic, record);
  }

  /** Two visits in a row of a record carrying `c`: a child of `c`, then a grandchild. */
  lemma TwoVisitsWithContext(env: ConsumeEnv, s1: ConsumeState, topic: string, record: ConsumerRecord, c: TraceContext)
    returns (s2: ConsumeState, s3: ConsumeState)
    requires Lawful(env.propagation) && env.keys == env.propagation.keys
    requires !env.noop && c.sampled == Some(true)
    requires record.headers in s1.store
    requires env.propagation.extract(View(env.keys, s1.store[record.headers])) == Extracted(Context(c), [])
    ensures Step(env, s1, topic, record) == s2 && record.headers in s2.store
    ensures Step(env, s2, topic, record) == s3 && record.headers in s3.store
    ensures var child := TraceContext(c.traceId, s1.nextId, Some(c.spanId), Some(true));
      var grandchild := TraceContext(c.traceId, s1.nextId + 1, Some(s1.nextId), Some(true));
      var own := SpanInfo(SpanName, CONSUMER, env.remoteServiceName, ConsumeTags(topic, env));
      && s2.log == s1.log + [Started(child, own), Finished(child)]
      && s3.log == s2.log + [Started(grandchild, own), Finished(grandchild)]
      && s3.shared == s1.shared
  {
    s2 := VisitWithContext(env, s1, topic, record, c);
    s3 := VisitWithContext(env, s2, topic, record, TraceContext(c.traceId, s1.nextId, Some(c.spanId), Some(true)));
  }

  /** Three records in a row are three `Step`s. */
  lemma RunThreeRecords(env: ConsumeEnv, s0: ConsumeState, topic: string, record: ConsumerRecord,
                        s1: ConsumeState, s2: ConsumeState, s3: ConsumeState)
    requires record.headers in s0.store && Step(env, s0, topic, record) == s1
    requires record.headers in s1.store && Step(env, s1, topic, record) == s2
    requires record.headers in s2.store && Step(env, s2, topic, record) == s3
    ensures RunRecords(env, s0, topic, [record, record, record]) == s3
  {
    RunRepeated(env, s0, topic, record);
  }

  /** One, two and three visits of the same record, each a `Step` after the one before. */
  lemma RunRepeated(env: ConsumeEnv, st: ConsumeState, topic: string, rec: ConsumerRecord)
    requires rec.headers in st.store
    ensures RunRecords(env, st, topic, [rec]) == Step(env, st, topic, rec)
    ensures RunRecords(env, st, topic, [rec, rec]) == Step(env, RunRecords(env, st, topic, [rec]), topic, rec)
    ensures RunRecords(env, st, topic, [rec, rec, rec]) == Step(env, RunRecords(env, st, topic, [rec, rec]), topic, rec)
  {
    assert [rec][..0] == [];
    assert [rec, rec][..1] == [rec];
    assert [rec, rec, rec][..2] == [rec, rec];
  }

  /** The events of the three visits from `ConsumeState(_, n, l, _)`, from what each visit records. */
  lemma ThreeLogs(s0: ConsumeState, s1: ConsumeState, s2: ConsumeState, s3: ConsumeState,
                  n: nat, l: seq<SpanEvent>, poll: SpanInfo, own: SpanInfo, topic: string)
    requires s0.nextId == n && s0.log == l
    requires var c0 := TraceContext(n, n, None, Some(true));
      && s1.log == s0.log + [Started(c0, poll)] && s1.nextId == s0.nextId + 1
      && s1.shared == [(topic, Span(c0, false))]
      && s2.log == s1.log + [Started(TraceContext(c0.traceId, s1.nextId, Some(c0.spanId), Some(true)), own),
                             Finished(TraceContext(c0.traceId, s1.nextId, Some(c0.spanId), Some(true)))]
      && s3.log == s2.log + [Started(TraceContext(c0.traceId, s1.nextId + 1, Some(s1.nextId), Some(true)), own),
                             Finished(TraceContext(c0.traceId, s1.nextId + 1, Some(s1.nextId), Some(true)))]
      && s3.shared == s1.shared
    ensures var c0 := TraceContext(n, n, None, Some(true));
      var c1 := TraceContext(n, n + 1, Some(n), Some(true));
      var c2 := TraceContext(n, n + 2, Some(n + 1), Some(true));
      && s3.log == l + [Started(c0, poll), Started(c1, own), Finished(c1), Started(c2, own), Finished(c2)]
      && s3.shared == [(topic, Span(c0, false))]
  {
    var c0 := TraceContext(n, n, None, Some(true));
    var c1 := TraceContext(n, n + 1, Some(n), Some(true));
    var c2 := TraceContext(n, n + 2, Some(n + 1), Some(true));
    calc {
      s3.log;
      l + [Started(c0, poll)] + [Started(c1, own), Finished(c1)] + [Started(c2, own), Finished(c2)];
      l + ([Started(c0, poll)] + [Started(c1, own), Finished(c1)] + [Started(c2, own), Finished(c2)]);
      l + [Started(c0, poll), Started(c1, own), Finished(c1), Started(c2, own), Finished(c2)];
    }
  }

  /** The three visits of `SameRecordThreeTimes`, one `Step` at a time. */
  lemma ThreeSteps(env: ConsumeEnv, record: ConsumerRecord, store: map<Headers, seq<Header>>,
                   nextId: nat, log: seq<SpanEvent>, topic: string)
    returns (s1: ConsumeState, s2: ConsumeState, s3: ConsumeState)
    requires Lawful(env.propagation) && env.keys == env.propagation.keys
    requires !env.noop && env.sampler(nextId)
    requires record.headers in store
    requires forall i :: 0 <= i < |env.keys| ==> P.Lookup(store[record.headers], env.keys[i]).None?
    ensures Step(env, ConsumeState(store, nextId, log, []), topic, record) == s1
    ensures record.headers in s1.store && Step(env, s1, topic, record) == s2
    ensures record.headers in s2.store && Step(env, s2, topic, record) == s3
    ensures var c0 := TraceContext(nextId, nextId, None, Some(true));
      var c1 := TraceContext(nextId, nextId + 1, Some(nextId), Some(true));
      var c2 := TraceContext(nextId, nextId + 2, Some(nextId + 1), Some(true));
      var tags := ConsumeTags(topic, env);
      && s3.log == log + [Started(c0, SpanInfo(PollSpanName, CONSUMER, env.remoteServiceName, tags)),
                          Started(c1, SpanInfo(SpanName, CONSUMER, env.remoteServiceName, tags)), Finished(c1),
                          Started(c2, SpanInfo(SpanName, CONSUMER, env.remoteServiceName, tags)), Finished(c2)]
      && s3.shared == [(topic, Span(c0, false))]
  {
    var s0 := ConsumeState(store, nextId, log, []);
    var tags := ConsumeTags(topic, env);
    var c0 := TraceContext(nextId, nextId, None, Some(true));

    // first visit: nothing to extract, so the topic's poll span is opened and injected
    s1 := FirstVisitOpensPoll(env, s0, topic, record);
    // second and third visits: the poll span's context is found, so a child span
    // is recorded, and then a grandchild, of the second visit's span
    s2, s3 := TwoVisitsWithContext(env, s1, topic, record, c0);
    ThreeLogs(s0, s1, s2, s3, nextId, log, SpanInfo(PollSpanName, CONSUMER, env.remoteServiceName, tags),
              SpanInfo(SpanName, CONSUMER, env.remoteServiceName, tags), topic);
  }

  /** The three visits of `SameRecordThreeTimes`, before the shared span is finished. */
  lemma ThreeVisits(env: ConsumeEnv, record: ConsumerRecord, store: map<Headers, seq<Header>>,
                    nextId: nat, log: seq<SpanEvent>) returns (s3: ConsumeState)
    requires Lawful(env.propagation) && env.keys == env.propagation.keys
    requires !env.noop && env.sampler(nextId)
    requires record.headers in store
    requires forall i :: 0 <= i < |env.keys| ==> P.Lookup(store[record.headers], env.keys[i]).None?
    ensures RunRecords(env, ConsumeState(store, nextId, log, []), "topic", [record, record, record]) == s3
    ensures var c0 := TraceContext(nextId, nextId, None, Some(true));
      var c1 := TraceContext(nextId, nextId + 1, Some(nextId), Some(true));
      var c2 := TraceContext(nextId, nextId + 2, Some(nextId + 1), Some(true));
      var tags := ConsumeTags("topic", env);
      && s3.log == log + [Started(c0, SpanInfo(PollSpanName, CONSUMER, env.remoteServiceName, tags)),
                          Started(c1, SpanInfo(SpanName, CONSUMER, env.remoteServiceName, tags)), Finished(c1),
                          Started(c2, SpanInfo(SpanName, CONSUMER, env.remoteServiceName, tags)), Finished(c2)]
      && s3.shared == [("topic", Span(c0, false))]
  {
    var s1, s2;
    s1, s2, s3 := ThreeSteps(env, record, store, nextId, log, "topic");
    RunThreeRecords(env, ConsumeState(store, nextId, log, []), "topic", record, s1, s2, s3);
  }

  /**
   * The case `shouldCreateSpansOnConsume` checks: one record without headers,
   * polled three times in one partition, reports three spans: the topic's `poll`
   * span, a child `on_consume` span of it, and a grandchild, finished in that order.
   */
  lemma SameRecordThreeTimes(env: ConsumeEnv, record: ConsumerRecord, store: map<Headers, seq<Header>>,
                             nextId: nat, log: seq<SpanEvent>)
    requires Lawful(env.propagation) && env.keys == env.propagation.keys
    requires !env.noop && forall t :: env.sampler(t)
    requires record.headers in store
    requires forall i :: 0 <= i < |env.keys| ==> P.Lookup(store[record.headers], env.keys[i]).None?
    ensures var records := ConsumerRecords([PartitionRecords(TopicPartition("topic", 0), [record, record, record])]);
      var c0 := TraceContext(nextId, nextId, None, Some(true));
      var c1 := TraceContext(nextId, nextId + 1, Some(nextId), Some(true));
      var c2 := TraceContext(nextId, nextId + 2, Some(nextId + 1), Some(true));
      var tags := ConsumeTags("topic", env);
      Consume(env, records, store, nextId, log).log == log + [
        Started(c0, SpanInfo(PollSpanName, CONSUMER, env.remoteServiceName, tags)),
        Started(c1, SpanInfo(SpanName, CONSUMER, env.remoteServiceName, tags)), Finished(c1),
        Started(c2, SpanInfo(SpanName, CONSUMER, env.remoteServiceName, tags)), Finished(c2),
        Finished(c0)]
  {
    var s3 := ThreeVisits(env, record, store, nextId, log);
    ConsumeAfterThreeVisits(env, record, store, nextId, log, s3);
  }

  /** The batch of `SameRecordThreeTimes`, from the state its three visits leave behind. */
  lemma ConsumeAfterThreeVisits(env: ConsumeEnv, record: ConsumerRecord, store: map<Headers, seq<Header>>,
                                nextId: nat, log: seq<SpanEvent>, s3: ConsumeState)
    requires !env.noop && record.headers in store
    requires RunRecords(env, ConsumeState(store, nextId, log, []), "topic", [record, record, record]) == s3
    requires var c0 := TraceContext(nextId, nextId, None, Some(true));
      var c1 := TraceContext(nextId, nextId + 1, Some(nextId), Some(true));
      var c2 := TraceContext(nextId, nextId + 2, Some(nextId + 1), Some(true));
      var tags := ConsumeTags("topic", env);
      && s3.log == log + [Started(c0, SpanInfo(PollSpanName, CONSUMER, env.remoteServiceName, tags)),
                          Started(c1, SpanInfo(SpanName, CONSUMER, env.remoteServiceName, tags)), Finished(c1),
                          Started(c2, SpanInfo(SpanName, CONSUMER, env.remoteServiceName, tags)), Finished(c2)]
      && s3.shared == [("topic", Span(c0, false))]
    ensures var records := ConsumerRecords([PartitionRecords(TopicPartition("topic", 0), [record, record, record])]);
      var c0 := TraceContext(nextId, nextId, None, Some(true));
      var c1 := TraceContext(nextId, nextId + 1, Some(nextId), Some(true));
      var c2 := TraceContext(nextId, nextId + 2, Some(nextId + 1), Some(true));
      var tags := ConsumeTags("topic", env);
      Consume(env, records, store, nextId, log).log == log + [
        Started(c0, SpanInfo(PollSpanName, CONSUMER, env.remoteServiceName, tags)),
        Started(c1, SpanInfo(SpanName, CONSUMER, env.remoteServiceName, tags)), Finished(c1),
        Started(c2, SpanInfo(SpanName, CONSUMER, env.remoteServiceName, tags)), Finished(c2),
        Finished(c0)]
  {
    var part := PartitionRecords(TopicPartition("topic", 0), [record, record, record]);
    ConsumeOnePartition(env, part, store, nextId, log);
    FinishedAfterThree(Consume(env, ConsumerRecords([part]), store, nextId, log), s3, log, nextId, "topic",
                       SpanInfo(PollSpanName, CONSUMER, env.remoteServiceName, ConsumeTags("topic", env)),
                       SpanInfo(SpanName, CONSUMER, env.remoteServiceName, ConsumeTags("topic", env)));
  }

  /** The events of `SameRecordThreeTimes`, once the shared span is finished after the three visits. */
  lemma FinishedAfterThree(fin: ConsumeState, s3: ConsumeState, log: seq<SpanEvent>, n: nat, topic: string,
                           poll: SpanInfo, own: SpanInfo)
    requires fin == s3.(log := s3.log + FinishShared(s3.shared))
    requires var c0 := TraceContext(n, n, None, Some(true));
      var c1 := TraceContext(n, n + 1, Some(n), Some(true));
      var c2 := TraceContext(n, n + 2, Some(n + 1), Some(true));
      && s3.log == log + [Started(c0, poll), Started(c1, own), Finished(c1), Started(c2, own), Finished(c2)]
      && s3.shared == [(topic, Span(c0, false))]
    ensures var c0 := TraceContext(n, n, None, Some(true));
      var c1 := TraceContext(n, n + 1, Some(n), Some(true));
      var c2 := TraceContext(n, n + 2, Some(n + 1), Some(true));
      fin.log == log + [Started(c0, poll), Started(c1, own), Finished(c1), Started(c2, own), Finished(c2), Finished(c0)]
  {
    FinishOneShared(topic, Span(TraceContext(n, n, None, Some(true)), false));
  }

  /** A batch of one partition is that partition's records, then the shared spans finished. */
  lemma ConsumeOnePartition(env: ConsumeEnv, part: PartitionRecords, store: map<Headers, seq<Header>>,
                            nextId: nat, log: seq<SpanEvent>)
    requires !env.noop && forall rec :: rec in part.records ==> rec.headers in store
    ensures HeadersOf(ConsumerRecords([part])) <= store.Keys
    ensures var st := RunRecords(env, ConsumeState(store, nextId, log, []), part.partition.topic, part.records);
      Consume(env, ConsumerRecords([part]), store, nextId, log) == st.(log := st.log + FinishShared(st.shared))
  {
    var init := ConsumeState(store, nextId, log, []);
    assert [part][..0] == [];
    assert RunPartitions(env, init, [part]) == RunRecords(env, init, part.partition.topic, part.records);
  }

  lemma FinishOneShared(topic: string, span: Span)
    requires !span.noop
    ensures FinishShared([(topic, span)]) == [Finished(span.context)]
  {
    assert [(topic, span)][..0] == [];
  }

  /** `TracingConsumerInterceptor`: its fields are `null` (`None`) until `configure`. */
  class TracingConsumerInterceptor {
    var configuration: Option<TracingConfiguration>
    var remoteServiceName: Option<string>
    var tracing: Tracing?
    /** The propagation whose injector and extractor `configure` kept. */
    var propagation: Option<TracePropagation>

    constructor ()
      ensures configuration.None? && remoteServiceName.None? && tracing == null && propagation.None?
    {
      configuration := None;
      remoteServiceName := None;
      tracing := null;
      propagation := None;
    }

    predicate Configured()
      reads this
    {
      configuration.Some? && remoteServiceName.Some? && tracing != null && propagation.Some?
    }

    /** The inputs of `Consume` as the interceptor's fields give them. */
    function Env(): ConsumeEnv
      requires Configured()
      reads this
    {
      ConsumeEnv(propagation.value, tracing.propagation.keys, tracing.noop, tracing.sampler, remoteServiceName.value,
                 configuration.value.GetString(GroupIdConfig), configuration.value.GetString(ClientIdConfig))
    }

    /** `configure`: as `Producer.TracingProducerInterceptor.Configure`. */
    method Configure(configs: map<string, ConfigValue>, valueOf: string -> Option<TB.FloatValue>,
                     counting: nat -> bool, propagation: TracePropagation)
      returns (outcome: Outcome<TB.BuildError>)
      modifies this
      ensures configuration == Some(TracingConfiguration(configs))
      ensures remoteServiceName == Some(TracingConfiguration(configs).GetStringOrDefault(
                                          RemoteServiceNameConfig, Some(RemoteServiceNameDefault)).value)
      ensures var built := TB.NewBuilder(TracingConfiguration(configs)).Build(valueOf);
        && (built.Failure? ==> outcome == Fail(built.error) && tracing == old(tracing)
                               && this.propagation == old(this.propagation))
        && (built.Success? ==> && outcome == Pass && Configured() && fresh(tracing)
                               && tracing.settings == built.value && tracing.propagation == propagation
                               && !tracing.noop && tracing.nextId == 1 && tracing.log == []
                               && this.propagation == Some(propagation))
    {
      var c := TracingConfiguration(configs);
      configuration := Some(c);
      remoteServiceName := Some(c.GetStringOrDefault(RemoteServiceNameConfig, Some(RemoteServiceNameDefault)).value);
      match TB.NewBuilder(c).Build(valueOf)
      case Failure(err) =>
        outcome := Fail(err);
      case Success(settings) =>
        tracing := new Tracing(settings, propagation, false, counting);
        this.propagation := Some(propagation);
        outcome := Pass;
    }

    /** A record that can share a span and whose topic has none yet: open the topic's `poll` span and inject it. */
    method OpenSharedSpan(topic: string, record: ConsumerRecord, extracted: Extracted) returns (span: Span)
      requires Configured()
      modifies record.headers, tracing
      ensures span == NewSpan(extracted, old(tracing.nextId), tracing.noop, tracing.sampler)
      ensures tracing.nextId == old(tracing.nextId) + 1
      ensures tracing.log == old(tracing.log)
                + StartEvents(span, SpanInfo(PollSpanName, CONSUMER, remoteServiceName.value, ConsumeTags(topic, Env())))
      ensures record.headers.entries == PutAll(old(record.headers.entries), propagation.value.inject(span.context))
    {
      span := tracing.NextSpan(extracted);
      tracing.Start(span, SpanInfo(PollSpanName, CONSUMER, remoteServiceName.value, ConsumeTags(topic, Env())));
      Inject(propagation.value, span.context, record.headers);
    }

    /** A record that cannot share a span: start and finish its own, then replace its propagation headers. */
    method OwnSpan(topic: string, record: ConsumerRecord, extracted: Extracted) returns (span: Span)
      requires Configured()
      modifies record.headers, tracing
      ensures span == NewSpan(extracted, old(tracing.nextId), tracing.noop, tracing.sampler)
      ensures tracing.nextId == old(tracing.nextId) + 1
      ensures var info := SpanInfo(SpanName, CONSUMER, remoteServiceName.value, ConsumeTags(topic, Env()));
        tracing.log == old(tracing.log) + (if span.noop then [] else [Started(span.context, info), Finished(span.context)])
      ensures record.headers.entries
              == PutAll(WithoutAll(old(record.headers.entries), tracing.propagation.keys), propagation.value.inject(span.context))
    {
      span := tracing.NextSpan(extracted);
      if !span.noop {
        tracing.Start(span, SpanInfo(SpanName, CONSUMER, remoteServiceName.value, ConsumeTags(topic, Env())));
        tracing.Finish(span);
      }
      RemoveKeys(tracing.propagation.keys, record.headers);
      Inject(propagation.value, span.context, record.headers);
    }

    /** The inner loop's body for one record of topic `topic`. */
    method ConsumeRecord(topic: string, record: ConsumerRecord, shared: seq<(string, Span)>, ghost st: ConsumeState)
      returns (shared': seq<(string, Span)>)
      requires Configured()
      requires record.headers in st.store && record.headers.entries == st.store[record.headers]
      requires shared == st.shared && tracing.nextId == st.nextId && tracing.log == st.log
      modifies record.headers, tracing
      ensures var r := Step(Env(), st, topic, record);
        && shared' == r.shared && tracing.nextId == r.nextId && tracing.log == r.log
        && record.headers.entries == r.store[record.headers]
    {
      ghost var env := Env();
      var extracted := Extract(propagation.value, record.headers);
      shared' := shared;
      if Shareable(extracted) {
        var found := FindShared(shared, topic);
        if found.None? {
          StepOpensShared(env, st, topic, record);
          var span := OpenSharedSpan(topic, record, extracted);
          shared' := shared + [(topic, span)];
        } else {
          StepJoinsShared(env, st, topic, record);
          Inject(propagation.value, found.value.context, record.headers);
        }
      } else {
        StepOwnSpan(env, st, topic, record);
        var span := OwnSpan(topic, record, extracted);
      }
      assert Env() == env;
    }

    /** The inner loop of `onConsume`: every record of one partition, in order. */
    method ConsumePartition(topic: string, recs: seq<ConsumerRecord>, shared: seq<(string, Span)>,
                            ghost hs: set<Headers>, ghost st: ConsumeState)
      returns (shared': seq<(string, Span)>, ghost st': ConsumeState)
      requires Configured()
      requires st.store.Keys == hs && forall rec :: rec in recs ==> rec.headers in hs
      requires forall h :: h in hs ==> h.entries == st.store[h]
      requires shared == st.shared && tracing.nextId == st.nextId && tracing.log == st.log
      modifies hs, tracing
      ensures st' == RunRecords(Env(), st, topic, recs)
      ensures shared' == st'.shared && tracing.nextId == st'.nextId && tracing.log == st'.log
      ensures forall h :: h in hs ==> h.entries == st'.store[h]
    {
      ghost var env := Env();
      st' := st;
      shared' := shared;
      var ri := 0;
      while ri < |recs|
        invariant 0 <= ri <= |recs|
        invariant env == Env()
        invariant st'.store.Keys == hs
        invariant st' == RunRecords(env, st, topic, recs[..ri])
        invariant shared' == st'.shared && tracing.nextId == st'.nextId && tracing.log == st'.log
        invariant forall h :: h in hs ==> h.entries == st'.store[h]
      {
        var record := recs[ri];
        shared' := ConsumeRecord(topic, record, shared', st');
        RunRecordsPrefix(env, st, topic, recs, ri);
        st' := Step(env, st', topic, record);
        ri := ri + 1;
      }
      assert recs[..ri] == recs;
    }

    /** The last loop of `onConsume`: finish every shared span, in the order the topics were seen. */
    method FinishAll(shared: seq<(string, Span)>)
      requires Configured()
      modifies tracing
      ensures tracing.nextId == old(tracing.nextId) && tracing.log == old(tracing.log) + FinishShared(shared)
    {
      var i := 0;
      while i < |shared|
        invariant 0 <= i <= |shared|
        invariant tracing.nextId == old(tracing.nextId) && tracing.log == old(tracing.log) + FinishShared(shared[..i])
      {
        assert shared[..i + 1][..i] == shared[..i];
        tracing.Finish(shared[i].1);
        i := i + 1;
      }
      assert shared[..i] == shared;
    }

    /** `onConsume`: returns the batch itself, with the records' headers rewritten as `Consume` says. */
    method OnConsume(records: ConsumerRecords) returns (r: ConsumerRecords)
      requires Configured()
      modifies HeadersOf(records), tracing
      ensures r == records
      ensures var fin := old(Consume(Env(), records, Snapshot(records), tracing.nextId, tracing.log));
        && (forall h :: h in HeadersOf(records) ==> h.entries == fin.store[h])
        && tracing.nextId == fin.nextId && tracing.log == fin.log
    {
      r := records;
      if records.IsEmpty() || tracing.noop {
        return;
      }
      ghost var hs := HeadersOf(records);
      ghost var env := Env();
      ghost var init := ConsumeState(Snapshot(records), tracing.nextId, tracing.log, []);
      ghost var st := init;
      var shared: seq<(string, Span)> := [];
      var parts := records.partitions;
      var pi := 0;
      while pi < |parts|
        invariant 0 <= pi <= |parts|
        invariant env == Env()
        invariant st.store.Keys == hs
        invariant st == RunPartitions(env, init, parts[..pi])
        invariant shared == st.shared && tracing.nextId == st.nextId && tracing.log == st.log
        invariant forall h :: h in hs ==> h.entries == st.store[h]
      {
        var part := parts[pi];
        assert forall rec :: rec in part.records ==> rec.headers in hs;
        shared, st := ConsumePartition(part.partition.topic, part.records, shared, hs, st);
        RunPartitionsPrefix(env, init, parts, pi);
        pi := pi + 1;
      }
      assert parts[..pi] == parts;
      FinishAll(shared);
    }
  }
}
