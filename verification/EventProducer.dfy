/** The reliable producer over the Redis lists and the dead-letter table: its emits, and the
    two jobs it registers with them, each proved to be a run of the cascade. */
module EventProducer {
  import opened EventCascade
  import opened EventServices
  import opened EventRuns

  class KafkaReliableProducerService {
    var kafkaAvailable: bool
    const redisFallback: RedisFallbackQueueService
    const dlq: KafkaDlqService
    /** What the broker has accepted, in order. */
    ghost var delivered: seq<Event>

    ghost function View(popped: multiset<Event>, replay: Replay, emitted: multiset<Event>): State
      reads this, redisFallback, dlq
    {
      State(delivered, redisFallback.lists, popped, dlq.rows, replay, kafkaAvailable, emitted)
    }

    constructor (redisFallback: RedisFallbackQueueService, dlq: KafkaDlqService, connected: bool)
      ensures this.redisFallback == redisFallback && this.dlq == dlq
      ensures kafkaAvailable == connected && delivered == []
    {
      this.redisFallback, this.dlq := redisFallback, dlq;
      kafkaAvailable, delivered := connected, [];
    }

    /** Throws exactly when the broker is down; success marks the broker available. */
    method EmitRaw(e: Event, kafkaUp: bool) returns (ok: bool)
      modifies this
      ensures ok == kafkaUp
      ensures delivered == if ok then old(delivered) + [e] else old(delivered)
      ensures kafkaAvailable == (old(kafkaAvailable) || ok)
    {
      ok := kafkaUp;
      if ok {
        delivered := delivered + [e];
        kafkaAvailable := true;
      }
    }

    /** The three-tier cascade, whatever drains and replays are under way around it. */
    method Emit(e: Event, kafkaUp: bool, redisUp: bool,
                ghost popped: multiset<Event>, ghost replay: Replay, ghost emitted: multiset<Event>)
      modifies this, redisFallback, dlq
      ensures View(popped, replay, emitted + multiset{e})
              == EmitStep(old(View(popped, replay, emitted)), e, kafkaUp, redisUp)
      ensures var sent := old(kafkaAvailable) && kafkaUp;
              && delivered == old(delivered) + (if sent then [e] else [])
              && kafkaAvailable == sent
              && (forall t :: ListOf(redisFallback.lists, t)
                              == ListOf(old(redisFallback.lists), t)
                                 + if t == e.topic && !sent && redisUp then [e] else [])
              && dlq.rows == old(dlq.rows) + (if sent || redisUp then [] else [Row(e, PENDING, 0, false)])
    {
      if kafkaAvailable {
        var ok := EmitRaw(e, kafkaUp);
        if ok {
          return;
        }
        kafkaAvailable := false;
      }
      if redisUp {
        redisFallback.PushEvent(e);
        return;
      }
      dlq.PushToDlq(e);
    }

    /** A drain of one topic through the registered emit function. */
    method RunDrain(topic: string, up: nat -> bool,
                    ghost popped: multiset<Event>, ghost replay: Replay, ghost emitted: multiset<Event>)
      requires TopicsMatch(View(popped, replay, emitted))
      modifies this, redisFallback
      ensures var before := old(View(popped, replay, emitted));
              SameState(View(popped, replay, emitted),
                        After(before, DrainSteps(topic, ListOf(before.lists, topic), up, 0)))
    {
      DrainIsARun(View(popped, replay, emitted), topic, up, 0);
      var out := redisFallback.DrainTopic(topic, up);
      delivered := delivered + out;
      kafkaAvailable := kafkaAvailable || out != [];
    }

    /** The replay job through the registered emit function. */
    method RunReplay(up: nat -> bool, ghost popped: multiset<Event>, ghost emitted: multiset<Event>)
      modifies this, dlq
      ensures var before := old(View(popped, Idle, emitted));
              View(popped, Idle, emitted) == After(before, ReplaySteps(before.rows, up, REPLAY_BATCH_SIZE, 0))
    {
      var before := dlq.rows;
      ReplayIsARun(View(popped, Idle, emitted), up, REPLAY_BATCH_SIZE, 0);
      assert before[0..] == before;
      dlq.ReplayPending(up);
      var out := ReplayedEvents(before, up, REPLAY_BATCH_SIZE, 0);
      delivered := delivered + out;
      kafkaAvailable := kafkaAvailable || out != [];
    }
  }
}
