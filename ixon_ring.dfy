/** The ring buffer between andorIxon.py's two threads, as values: what one exposure event
    does on the producer's side and what one pass of the correction loop does on the
    consumer's side, with the balance between the two indices and the semaphore. */
module IxonRing {
  import opened Python
  import opened IxonGeometry

  /** What one exposure event reads and writes: the thread's counters and ring index, the
      camera's exposure numbers and ring, the image just read, and the semaphore's count. */
  datatype Producer = Producer(
    skipNext: int, count: int, skipEvery: int, ringIndex: int,
    picNum: seq<int>, ring: seq<Image>, image: Option<Image>, pending: int)

  predicate ProducerOk(p: Producer) {
    0 <= p.ringIndex < BUFFER_LENGTH && |p.picNum| == BUFFER_LENGTH
  }

  /** An event that is not skipped numbers the image; every `skipEvery`-th one is buffered,
      and a zero `skipEvery` raises ZeroDivisionError (caught by the thread). */
  predicate Due(p: Producer) {
    p.skipNext <= 0 && p.skipEvery != 0 && FloorMod(p.count + 1, p.skipEvery) == 0
  }

  /** The copy into the ring slot works: there is a slot, an image to copy, and numpy can
      broadcast one onto the other. */
  predicate Copies(p: Producer)
    requires ProducerOk(p)
  {
    p.ringIndex < |p.ring| && p.image.Some? && Assignable(p.image.value.shape, p.ring[p.ringIndex].shape)
  }

  /** One exposure event after the image was read. A skipped event only counts down. A due
      event stores its number (as a uint16) in the slot even when the copy then raises; only
      a copy that works releases the semaphore and moves to the next slot. */
  function Produced(p: Producer): (q: Producer)
    requires ProducerOk(p)
    ensures ProducerOk(q) && |q.ring| == |p.ring|
  {
    if p.skipNext > 0 then p.(skipNext := p.skipNext - 1)
    else
      var counted := p.(count := p.count + 1);
      if !Due(p) then counted
      else
        var numbered := counted.(picNum := p.picNum[p.ringIndex := UInt16(p.count + 1)]);
        if !Copies(p) then numbered
        else numbered.(ring := p.ring[p.ringIndex := p.ring[p.ringIndex].(frame := p.image.value.frame)],
                       pending := p.pending + 1, ringIndex := Advance(p.ringIndex))
  }

  /** Exactly the events that are due and whose copy works publish a slot: the slot keeps its
      shape and takes the image's frame, and nothing but the counters moves otherwise. */
  lemma ProducedPublishes(p: Producer)
    requires ProducerOk(p)
    ensures var q := Produced(p);
      (q.pending == p.pending + 1 <==> Due(p) && Copies(p))
      && (Due(p) && Copies(p) ==>
            q.ringIndex == Advance(p.ringIndex)
            && q.ring == p.ring[p.ringIndex := Image(p.ring[p.ringIndex].shape, p.image.value.frame)]
            && q.picNum == p.picNum[p.ringIndex := UInt16(p.count + 1)])
      && (!(Due(p) && Copies(p)) ==> q.pending == p.pending && q.ringIndex == p.ringIndex && q.ring == p.ring)
      && q.image == p.image && q.skipEvery == p.skipEvery
  {
  }

  /** A skipped event changes nothing but the skip count; an event not skipped is counted. */
  lemma ProducedCounts(p: Producer)
    requires ProducerOk(p)
    ensures p.skipNext > 0 ==> Produced(p) == p.(skipNext := p.skipNext - 1)
    ensures p.skipNext <= 0 ==> Produced(p).count == p.count + 1 && Produced(p).skipNext == p.skipNext
  {
  }

  /** With `skipEvery` one every counted image is due; with `n` positive, exactly those
      whose number is a multiple of `n`. */
  lemma DueEveryNth(p: Producer)
    requires p.skipNext <= 0 && p.skipEvery > 0
    ensures Due(p) <==> (p.count + 1) % p.skipEvery == 0
    ensures p.skipEvery == 1 ==> Due(p)
  {
    FloorModZero(p.count + 1, p.skipEvery);
  }

  /** The exposure numbers wrap: the 65536th buffered image is stored as number 0. */
  lemma PicNumWraps(p: Producer)
    requires ProducerOk(p) && p.skipNext <= 0 && p.skipEvery == 1 && p.count == 0xFFFF
    ensures Produced(p).picNum[p.ringIndex] == 0
  {
    assert FloorMod(p.count + 1, 1) == 0;
  }

  /** `k` exposure events in a row. */
  function ProducedTimes(p: Producer, k: nat): (q: Producer)
    requires ProducerOk(p)
    ensures ProducerOk(q)
  {
    if k == 0 then p else Produced(ProducedTimes(p, k - 1))
  }

  /** After skipNextNimages(n) the next `n` events publish nothing: they only count the skip
      down, and the event after them is counted again. */
  lemma {:induction false} SkippedEventsPublishNothing(p: Producer, k: nat)
    requires ProducerOk(p) && k <= p.skipNext
    ensures ProducedTimes(p, k) == p.(skipNext := p.skipNext - k)
  {
    if k > 0 {
      SkippedEventsPublishNothing(p, k - 1);
    }
  }

  /** A producer step keeps the ring balanced against any consumer index. */
  lemma ProducedBalanced(p: Producer, consumer: int)
    requires ProducerOk(p) && Balanced(p.ringIndex, consumer, p.pending)
    ensures Balanced(Produced(p).ringIndex, consumer, Produced(p).pending)
  {
    if p.skipNext <= 0 && Due(p) && Copies(p) {
      PublishBalanced(p.ringIndex, consumer, p.pending);
    }
  }

  /** What one pass of the correction loop reads and writes of its own: its ring index, the
      semaphore's count, its output image and what the client was sent. */
  datatype Consumer = Consumer(ringIndex: int, pending: int, newImage: Image, sent: seq<Image>)

  /** What it reads of the rest: the ring, its skips, the producer's ring index (None
      when there is no exposure thread), whether a client is connected, and whether sending to
      it goes through. */
  datatype Feed = Feed(
    ring: seq<Image>, left: int, right: int, top: int, bottom: int,
    producer: Option<int>, client: bool, sendOk: bool)

  predicate FeedOk(c: Consumer, f: Feed) {
    0 <= c.ringIndex < BUFFER_LENGTH && (f.producer.Some? ==> 0 <= f.producer.value < BUFFER_LENGTH)
  }

  /** The crop of the current slot can be assigned into the output image. */
  predicate Crops(c: Consumer, f: Feed) {
    0 <= c.ringIndex < |f.ring|
    && Assignable(CropShape(f.ring[c.ringIndex].shape, f.left, f.right, f.top, f.bottom), c.newImage.shape)
  }

  /** One pass of the correction loop. Without a pending frame it only sleeps. Otherwise it
      takes the frame and, whatever raises in between, moves to the next slot. The crop goes
      into the output image when the shapes allow; the occupancy needs the exposure thread;
      the image is delivered only to a connected client whose call goes through. */
  function Consumed(c: Consumer, f: Feed): (d: Consumer)
    requires FeedOk(c, f)
    ensures 0 <= d.ringIndex < BUFFER_LENGTH
  {
    if c.pending <= 0 then c
    else
      var taken := c.(pending := c.pending - 1, ringIndex := Advance(c.ringIndex));
      if !Crops(c, f) then taken
      else
        var image := c.newImage.(frame := f.ring[c.ringIndex].frame);
        if f.producer.None? || !f.client || !f.sendOk then taken.(newImage := image)
        else taken.(newImage := image, sent := c.sent + [image])
  }

  /** The occupancy the pass prints, when it reaches the print. */
  function Buffers(c: Consumer, f: Feed): (n: Option<int>)
    requires FeedOk(c, f)
    ensures n.Some? ==> 0 <= n.value < BUFFER_LENGTH
    ensures n.Some? <==> c.pending > 0 && Crops(c, f) && f.producer.Some?
  {
    if c.pending > 0 && Crops(c, f) && f.producer.Some? then Some(Occupancy(f.producer.value, c.ringIndex))
    else None
  }

  /** A pass with a frame pending always takes it and moves on, even when the crop or the send
      raises; the output image only changes by taking the current slot's frame; at most that
      image is delivered. */
  lemma ConsumedTakes(c: Consumer, f: Feed)
    requires FeedOk(c, f)
    ensures var d := Consumed(c, f);
      (c.pending <= 0 ==> d == c)
      && (c.pending > 0 ==> d.pending == c.pending - 1 && d.ringIndex == Advance(c.ringIndex))
      && (d.newImage == c.newImage || (Crops(c, f) && d.newImage == c.newImage.(frame := f.ring[c.ringIndex].frame)))
      && (d.sent == c.sent || d.sent == c.sent + [d.newImage])
      && (d.sent != c.sent <==> c.pending > 0 && Crops(c, f) && f.producer.Some? && f.client && f.sendOk)
  {
  }

  /** A consumer step keeps the ring balanced against the producer's index. */
  lemma ConsumedBalanced(c: Consumer, f: Feed, producer: int)
    requires FeedOk(c, f) && Balanced(producer, c.ringIndex, c.pending)
    ensures Balanced(producer, Consumed(c, f).ringIndex, Consumed(c, f).pending)
  {
    if c.pending > 0 {
      TakeBalanced(producer, c.ringIndex, c.pending);
    }
  }

  /** In a balanced ring the printed occupancy counts the frames pending, this one included,
      modulo the buffer length. */
  lemma BuffersCountPending(c: Consumer, f: Feed)
    requires FeedOk(c, f) && f.producer.Some? && Balanced(f.producer.value, c.ringIndex, c.pending)
    requires Buffers(c, f).Some?
    ensures Buffers(c, f).value == c.pending % BUFFER_LENGTH
  {
    OccupancyCountsPending(f.producer.value, c.ringIndex, c.pending);
  }

  /** A frame the producer publishes into the slot the consumer is waiting on is what the
      consumer's next pass delivers, when the crop fits and the client takes it. */
  lemma HandOff(p: Producer, c: Consumer, f: Feed)
    requires ProducerOk(p) && Due(p) && Copies(p)
    requires c.ringIndex == p.ringIndex && c.pending == p.pending && p.pending == 0
    requires f.ring == Produced(p).ring && f.producer == Some(Produced(p).ringIndex) && f.client && f.sendOk
    requires Crops(c, f)
    ensures Consumed(c.(pending := Produced(p).pending), f).sent == c.sent + [c.newImage.(frame := p.image.value.frame)]
  {
    ProducedPublishes(p);
  }

  /** setImage puts both indices back to 0 and leaves the semaphore alone, so the ring stays
      balanced only when no frame was pending (modulo the buffer length). */
  lemma ResetBalanced(pending: int)
    ensures Balanced(0, 0, pending) <==> pending % BUFFER_LENGTH == 0
  {
  }

  /** The exposure thread takes the semaphore's initial count before its first event. If the
      correction thread takes it first, it skips past slot 0 before anything was published and
      the ring is out of balance. Worse, the exposure thread's own blocking acquire then never
      returns, since only that thread releases the semaphore: no frame is ever produced. */
  lemma ConsumerFirstUnbalances(c: Consumer, f: Feed)
    requires FeedOk(c, f) && c.ringIndex == 0 && c.pending == 1
    ensures Balanced(0, 0, 0)
    ensures !Balanced(0, Consumed(c, f).ringIndex, Consumed(c, f).pending)
  {
  }

  /** With a semaphore that starts at 0 and no initial acquire, the start-up order no longer
      matters: a correction pass that runs first finds nothing pending and changes nothing,
      and the ring starts balanced. */
  lemma ZeroStartWaits(c: Consumer, f: Feed)
    requires FeedOk(c, f) && c.ringIndex == 0 && c.pending == 0
    ensures Consumed(c, f) == c
    ensures Balanced(0, Consumed(c, f).ringIndex, Consumed(c, f).pending)
  {
  }
}
