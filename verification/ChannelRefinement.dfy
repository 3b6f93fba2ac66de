/** The channel object follows the channel of the runtime protocol, step by step. */
module ChannelRefinement {
  import opened Threads
  import opened FrameQueue
  import opened RuntimeProtocol
  import opened RuntimeChannels
  import opened RuntimeQueues

  /** The object holds the queue, the flags and the drop count of the protocol's channel. */
  ghost predicate Represents(queue: EncoderChannel, ch: Channel)
    reads queue
  {
    && queue.Valid() && queue.depth == ch.depth
    && queue.pending == ch.pending && queue.pendingBytes == ch.pendingBytes
    && queue.active == ch.active && queue.stopping == ch.stopping && queue.framesDropped == ch.dropped
  }

  /** A frame arrives. */
  method Receive(queue: EncoderChannel, ghost ch: Channel, frame: Frame)
    requires Represents(queue, ch) && frame.bytes <= MAX_QUEUED_BYTES
    modifies queue
    ensures Represents(queue, Enqueued(ch, frame))
  {
    queue.Enqueue(frame);
  }

  /** A thread takes a step on the channel: whatever the step, the object's own operations
      bring it to where the protocol is. */
  method Follow(queue: EncoderChannel, e: LocalEvent, ghost g: Global, ghost v: Here, ghost t: Tid, ghost c: nat)
    requires Represents(queue, v.ch) && LocalEnabled(g, v, t, e)
    requires ChannelOf(v.pc) == Some(c) && Agrees(t, v.pc, c, v.ch) && Queued(v.ch, g.framesIn)
    modifies queue
    ensures Represents(queue, LocalApply(g, v, t, e).ch)
  {
    match e
    case Activation(ev) =>
      if ev.Commit? {
        queue.SetActive(true);
      } else {
        ActivationRests(g, v, t, ev);
      }
    case Deactivation(ev) =>
      if ev.Mute? {
        queue.BeginStop();
      } else if ev.Deactivate? {
        queue.SetActive(false);
      } else {
        DeactivationRests(v, t, ev);
      }
    case Replacement(ev) => ReplacementRests(g, v, t, c, ev);
    case Delivery(ev) =>
      if ev.PumpTake? && queue.active && !queue.stopping && queue.pending != [] {
        var frame := queue.Take();
      } else {
        DeliveryRests(g, v, t, ev);
      }
  }

  /** The step leaves queue, flags and drop count alone. */
  predicate Rests(ch: Channel, ch': Channel) {
    && ch'.depth == ch.depth && ch'.pending == ch.pending && ch'.pendingBytes == ch.pendingBytes
    && ch'.active == ch.active && ch'.stopping == ch.stopping && ch'.dropped == ch.dropped
  }

  lemma ActivationRests(g: Global, v: Here, t: Tid, e: ActivateEvent)
    requires ActivateEnabled(v, t, e) && !e.Commit?
    ensures Rests(v.ch, ActivateApply(g, v, t, e).ch)
  {
    assert SameQueue(v.ch, ActivateApply(g, v, t, e).ch);
  }

  lemma DeactivationRests(v: Here, t: Tid, e: DeactivateEvent)
    requires DeactivateEnabled(v, t, e) && !e.Mute? && !e.Deactivate?
    ensures Rests(v.ch, DeactivateApply(v, t, e).ch)
  {
    assert SameQueue(v.ch, DeactivateApply(v, t, e).ch);
  }

  /** A replacement finds an inactive channel, so there is nothing to clear. */
  lemma ReplacementRests(g: Global, v: Here, t: Tid, c: nat, e: ConfEvent)
    requires ConfEnabled(v, t, e) && ChannelOf(v.pc) == Some(c) && Agrees(t, v.pc, c, v.ch) && Queued(v.ch, g.framesIn)
    ensures Rests(v.ch, ConfApply(g, v, t, e).ch)
  {
  }

  lemma DeliveryRests(g: Global, v: Here, t: Tid, e: PumpEvent)
    requires PumpEnabled(g, v, t, e)
    requires !e.PumpTake? || !v.ch.active || v.ch.stopping || v.ch.pending == []
    ensures Rests(v.ch, PumpApply(g, v, t, e).ch)
  {
  }
}
