/** The consumer loop `RabbitConsumer.Run` (`internal/app/queue/rabbit.go`): for every
    delivery, in order, decode the task, hand it to the task handler, acknowledge the
    message, and publish a `DBUpload` completion event to the producer queue.

    The broker, the JSON codec and the handler are outside the model. Each delivery
    carries what they answer for it: the task the decoder left behind (whatever it was
    when decoding failed) and whether decoding failed, the URL and success of the
    handler's `Execute`, and whether the publish failed. Run is a trace of the calls the
    loop makes on its collaborators. */
module Queue {
  import opened Wrappers
  import opened TaskModel

  /** One message from the consume channel, with the outcomes of the calls made for it. */
  datatype Delivery = Delivery(tag: nat, task: VideoTask, decodeOk: bool,
                               handlerUrl: string, handlerOk: bool, publishOk: bool)

  /** The calls the loop makes, in order. */
  datatype ConsumerEvent =
    | HandlerCalled(task: VideoTask)
    | Acked(tag: nat)
    | PublishAttempted(queue: string, post: DBUpload)

  datatype QueueError = ConsumeSetupFailed

  /** The completion event for a task and the URL its handler returned. */
  function Post(vt: VideoTask, url: string): DBUpload
  {
    DBUpload(vt.videoId, vt.userId, vt.videoTitle, url)
  }

  /** The calls made for one delivery. */
  function MessageTrace(producer: string, d: Delivery): seq<ConsumerEvent>
  {
    [HandlerCalled(d.task), Acked(d.tag), PublishAttempted(producer, Post(d.task, d.handlerUrl))]
  }

  /** The calls made for a sequence of deliveries, one message after the other. */
  function RunTrace(producer: string, ds: seq<Delivery>): seq<ConsumerEvent>
    decreases |ds|
  {
    if ds == [] then [] else RunTrace(producer, ds[..|ds| - 1]) + MessageTrace(producer, ds[|ds| - 1])
  }

  /** The delivery tags of a sequence of deliveries, in order. */
  function Tags(ds: seq<Delivery>): seq<nat>
    decreases |ds|
  {
    if ds == [] then [] else Tags(ds[..|ds| - 1]) + [ds[|ds| - 1].tag]
  }

  /** The tags acknowledged in a trace, in order. */
  function AckedTags(t: seq<ConsumerEvent>): seq<nat>
    decreases |t|
  {
    if t == [] then []
    else AckedTags(t[..|t| - 1]) + (if t[|t| - 1].Acked? then [t[|t| - 1].tag] else [])
  }

  /** The completion events published in a trace, in order. */
  function PublishedPosts(t: seq<ConsumerEvent>): seq<DBUpload>
    decreases |t|
  {
    if t == [] then []
    else PublishedPosts(t[..|t| - 1]) + (if t[|t| - 1].PublishAttempted? then [t[|t| - 1].post] else [])
  }

  // ---------------------------------------------------------------------------
  // Properties of the trace
  // ---------------------------------------------------------------------------

  /** Messages are handled one at a time in delivery order; for each, the handler is
      called with the decoded task, then the message is acknowledged, then a `DBUpload`
      copying the task's video ID, user ID and title, with the URL the handler returned,
      is published to the producer queue. */
  lemma {:induction false} RunTraceShape(producer: string, ds: seq<Delivery>)
    decreases |ds|
    ensures var t := RunTrace(producer, ds);
      && |t| == 3 * |ds|
      && forall k :: 0 <= k < |ds| ==>
           && t[3 * k] == HandlerCalled(ds[k].task)
           && t[3 * k + 1] == Acked(ds[k].tag)
           && t[3 * k + 2] == PublishAttempted(producer, DBUpload(ds[k].task.videoId, ds[k].task.userId,
                                                                  ds[k].task.videoTitle, ds[k].handlerUrl))
  {
    if ds != [] {
      var init := ds[..|ds| - 1];
      RunTraceShape(producer, init);
      var t := RunTrace(producer, ds);
      assert t == RunTrace(producer, init) + MessageTrace(producer, ds[|ds| - 1]);
      forall k | 0 <= k < |ds|
        ensures t[3 * k] == HandlerCalled(ds[k].task)
        ensures t[3 * k + 1] == Acked(ds[k].tag)
        ensures t[3 * k + 2] == PublishAttempted(producer, Post(ds[k].task, ds[k].handlerUrl))
      {
        if k < |ds| - 1 {
          assert ds[k] == init[k];
        }
      }
    }
  }

  lemma AckedTagsAppend(a: seq<ConsumerEvent>, b: seq<ConsumerEvent>)
    decreases |b|
    ensures AckedTags(a + b) == AckedTags(a) + AckedTags(b)
  {
    if b != [] {
      assert (a + b)[..|a + b| - 1] == a + b[..|b| - 1];
      AckedTagsAppend(a, b[..|b| - 1]);
    } else {
      assert a + b == a;
    }
  }

  lemma PublishedPostsAppend(a: seq<ConsumerEvent>, b: seq<ConsumerEvent>)
    decreases |b|
    ensures PublishedPosts(a + b) == PublishedPosts(a) + PublishedPosts(b)
  {
    if b != [] {
      assert (a + b)[..|a + b| - 1] == a + b[..|b| - 1];
      PublishedPostsAppend(a, b[..|b| - 1]);
    } else {
      assert a + b == a;
    }
  }

  /** One message acknowledges its tag and publishes its completion event, once each. */
  lemma MessageProjections(producer: string, d: Delivery)
    ensures AckedTags(MessageTrace(producer, d)) == [d.tag]
    ensures PublishedPosts(MessageTrace(producer, d)) == [Post(d.task, d.handlerUrl)]
  {
    var m := MessageTrace(producer, d);
    var m1 := [HandlerCalled(d.task)];
    var m2 := m1 + [Acked(d.tag)];
    assert m1[..0] == [] && m2[..1] == m1 && m[..2] == m2;
    assert AckedTags(m1) == AckedTags(m1[..0]) + [] == [];
    assert PublishedPosts(m1) == PublishedPosts(m1[..0]) + [] == [];
    assert AckedTags(m2) == [d.tag] && PublishedPosts(m2) == [];
  }

  /** Every delivered message is acknowledged exactly once, in delivery order, whatever
      the decoder, the handler and the publish answered: there is no reject path. */
  lemma {:induction false} EveryMessageAckedOnce(producer: string, ds: seq<Delivery>)
    decreases |ds|
    ensures AckedTags(RunTrace(producer, ds)) == Tags(ds)
  {
    if ds != [] {
      var d := ds[|ds| - 1];
      EveryMessageAckedOnce(producer, ds[..|ds| - 1]);
      AckedTagsAppend(RunTrace(producer, ds[..|ds| - 1]), MessageTrace(producer, d));
      MessageProjections(producer, d);
    }
  }

  /** A completion event is published for every message, including those whose decoding
      or handler failed, in delivery order, each carrying its handler's URL. */
  lemma {:induction false} EveryMessagePublished(producer: string, ds: seq<Delivery>)
    decreases |ds|
    ensures var posts := PublishedPosts(RunTrace(producer, ds));
      && |posts| == |ds|
      && forall k :: 0 <= k < |ds| ==> posts[k] == Post(ds[k].task, ds[k].handlerUrl)
  {
    if ds != [] {
      var init, d := ds[..|ds| - 1], ds[|ds| - 1];
      EveryMessagePublished(producer, init);
      PublishedPostsAppend(RunTrace(producer, init), MessageTrace(producer, d));
      MessageProjections(producer, d);
      var posts := PublishedPosts(RunTrace(producer, ds));
      forall k | 0 <= k < |ds|
        ensures posts[k] == Post(ds[k].task, ds[k].handlerUrl)
      {
        if k < |ds| - 1 {
          assert ds[k] == init[k];
        }
      }
    }
  }

  /** Two delivery sequences that differ only in whether decoding, the handler or the
      publish failed produce the same calls: those failures are only logged. */
  lemma {:induction false} RunIgnoresFailures(producer: string, ds: seq<Delivery>, es: seq<Delivery>)
    requires |ds| == |es|
    requires forall k :: 0 <= k < |ds| ==>
      ds[k].tag == es[k].tag && ds[k].task == es[k].task && ds[k].handlerUrl == es[k].handlerUrl
    decreases |ds|
    ensures RunTrace(producer, ds) == RunTrace(producer, es)
  {
    if ds != [] {
      var n := |ds| - 1;
      forall k | 0 <= k < n
        ensures ds[..n][k].tag == es[..n][k].tag && ds[..n][k].task == es[..n][k].task
        ensures ds[..n][k].handlerUrl == es[..n][k].handlerUrl
      {
        assert ds[..n][k] == ds[k] && es[..n][k] == es[k];
      }
      RunIgnoresFailures(producer, ds[..n], es[..n]);
    }
  }

  // ---------------------------------------------------------------------------
  // The consumer
  // ---------------------------------------------------------------------------

  class RabbitConsumer {
    const consumerName: string
    const producerName: string
    /** The calls made so far on the handler and the broker. */
    var events: seq<ConsumerEvent>

    /** NewRabbitMQConsumer after a successful dial. */
    constructor (consumerName: string, producerName: string)
      ensures this.consumerName == consumerName && this.producerName == producerName && events == []
    {
      this.consumerName := consumerName;
      this.producerName := producerName;
      events := [];
    }

    /** Run: when opening the consume channel fails, return that error before any message
        is handled; otherwise handle every delivery until the channel closes. */
    method Run(channel: Option<seq<Delivery>>) returns (err: Option<QueueError>)
      modifies this
      ensures channel.None? ==> err == Some(ConsumeSetupFailed) && events == old(events)
      ensures channel.Some? ==> err == None && events == old(events) + RunTrace(producerName, channel.value)
    {
      if channel.None? {
        return Some(ConsumeSetupFailed);
      }
      var deliveries := channel.value;
      for i := 0 to |deliveries|
        invariant events == old(events) + RunTrace(producerName, deliveries[..i])
      {
        var msg := deliveries[i];
        var vt := msg.task;
        var url := msg.handlerUrl;
        events := events + [HandlerCalled(vt)];
        events := events + [Acked(msg.tag)];
        var post := DBUpload(vt.videoId, vt.userId, vt.videoTitle, url);
        events := events + [PublishAttempted(producerName, post)];
        assert deliveries[..i + 1][..i] == deliveries[..i];
      }
      assert deliveries[..|deliveries|] == deliveries;
      return None;
    }
  }
}
