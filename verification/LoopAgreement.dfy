/** The consumer loop as a program and the protocol's steps write the same frames. */
module LoopAgreement {
  import opened Delivery
  import opened Protocol
  import opened ProtocolInvariant
  import opened Handling
  import Failure

  /** The frames of one delivery: a copy before the settlement, each at most once, and
      no ack of a failed delivery without its copy ahead of it. */
  lemma FramesAreOrdered(h: Handled)
    ensures Ranked(Frames(h)) && |Frames(h)| <= 2
    ensures Ack in Frames(h) && h.result.Some? ==>
      Frames(h) == [Publish(RetryCopy(h.attempt.m, h.attempt.failedAt)), Ack]
    ensures (exists f :: f in Frames(h) && f.Publish?) ==>
      RetryAttempt(h.attempt.m.headers) + 1 < MAX_DELIVERY_ATTEMPTS
      && h.result.Some? && Failure.Classify(h.result.value) == Failure.Transient
  {
  }

  /** The protocol's actions for the settlement of a handled delivery. */
  function SendActions(c: Id, h: Handled): seq<Action> {
    var a := h.attempt;
    match h.result
    case None => [SendAck(c, a.settled)]
    case Some(cause) =>
      if Decide(a.m, cause) == GiveUp then [SendDiscard(c, a.settled)]
      else [SendCopy(c, a.sending), if a.sending == Sent then SendAck(c, a.settled) else SendRequeue(c, a.settled)]
  }

  /** The consumer is where handling the delivery with this result leads, and calls on
      its channel succeed only while it is open. */
  predicate IsHandled(s: State, c: Id, h: Handled) {
    && IsUp(s, c)
    && (s.consumers[c].connected || (!h.attempt.settled && h.attempt.sending == NotSent))
    && match h.result
       case None => s.consumers[c].phase == Succeeded(h.attempt.m)
       case Some(cause) => s.consumers[c].phase == Phase.Failed(h.attempt.m, cause, h.attempt.failedAt)
  }

  lemma SettleOnly(s: State, c: Id, h: Handled)
    requires IsHandled(s, c, h) && (h.result.None? || Decide(h.attempt.m, h.result.value) == GiveUp)
    ensures ValidRun(s, SendActions(c, h))
    ensures var after := Run(s, SendActions(c, h));
      IsUp(after, c) && after.consumers[c].phase == Idle && after.consumers[c].sent == s.consumers[c].sent + Frames(h)
  {
    RunOne(s, SendActions(c, h)[0]);
    assert s.consumers[c].sent + [] == s.consumers[c].sent;
  }

  lemma CopyGoes(s: State, c: Id, h: Handled) returns (next: State)
    requires IsHandled(s, c, h) && h.result.Some? && Decide(h.attempt.m, h.result.value) == RetryLater
    ensures Enabled(s, SendCopy(c, h.attempt.sending)) && next == Next(s, SendCopy(c, h.attempt.sending))
    ensures IsUp(next, c) && next.consumers[c].connected == s.consumers[c].connected
    ensures next.consumers[c].phase == if h.attempt.sending == Sent then Copied(h.attempt.m) else CopyFailed(h.attempt.m)
    ensures next.consumers[c].sent == s.consumers[c].sent
      + if h.attempt.sending == NotSent then [] else [Publish(RetryCopy(h.attempt.m, h.attempt.failedAt))]
  {
    next := Next(s, SendCopy(c, h.attempt.sending));
  }

  lemma SettlementGoes(s: State, c: Id, a: Action, frame: Frame, ok: bool)
    requires IsUp(s, c) && (ok ==> s.consumers[c].connected)
    requires (s.consumers[c].phase.Copied? && a == SendAck(c, ok) && frame == Ack)
          || (s.consumers[c].phase.CopyFailed? && a == SendRequeue(c, ok) && frame == Requeue)
    ensures Enabled(s, a) && IsUp(Next(s, a), c) && Next(s, a).consumers[c].phase == Idle
    ensures Next(s, a).consumers[c].sent == s.consumers[c].sent + if ok then [frame] else []
  {
  }

  lemma CopyThenSettle(s: State, c: Id, h: Handled)
    requires IsHandled(s, c, h) && h.result.Some? && Decide(h.attempt.m, h.result.value) == RetryLater
    ensures ValidRun(s, SendActions(c, h))
    ensures var after := Run(s, SendActions(c, h));
      IsUp(after, c) && after.consumers[c].phase == Idle && after.consumers[c].sent == s.consumers[c].sent + Frames(h)
  {
    var copied := CopyGoes(s, c, h);
    FrameParts(s.consumers[c].sent, h);
    if h.attempt.sending == Sent {
      SettlementGoes(copied, c, SendAck(c, h.attempt.settled), Ack, h.attempt.settled);
      RunTwo(s, SendCopy(c, h.attempt.sending), SendAck(c, h.attempt.settled));
    } else {
      SettlementGoes(copied, c, SendRequeue(c, h.attempt.settled), Requeue, h.attempt.settled);
      RunTwo(s, SendCopy(c, h.attempt.sending), SendRequeue(c, h.attempt.settled));
    }
  }

  lemma FrameParts(sent: seq<Frame>, h: Handled)
    requires h.result.Some? && Decide(h.attempt.m, h.result.value) == RetryLater
    ensures var copy := if h.attempt.sending == NotSent then [] else [Publish(RetryCopy(h.attempt.m, h.attempt.failedAt))];
      var settlement := if h.attempt.sending == Sent then Ack else Requeue;
      sent + Frames(h) == sent + copy + if h.attempt.settled then [settlement] else []
  {
  }

  /** For every handled delivery, the program and the step system agree on what goes
      out on the channel. */
  lemma LoopFollowsProtocol(s: State, c: Id, h: Handled)
    requires IsHandled(s, c, h)
    ensures ValidRun(s, SendActions(c, h))
    ensures var after := Run(s, SendActions(c, h));
      IsUp(after, c) && after.consumers[c].phase == Idle && after.consumers[c].sent == s.consumers[c].sent + Frames(h)
  {
    if h.result.None? || Decide(h.attempt.m, h.result.value) == GiveUp { SettleOnly(s, c, h); }
    else { CopyThenSettle(s, c, h); }
  }
}
