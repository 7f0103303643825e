/** No starvation: a slow client waits at most the grace period, whatever acks
    and changes arrive meanwhile. A subscription's `lastSent` rises exactly when
    it is handed a Snapshot, a Delta or the exit event. */
module Starvation {
  import opened Publishing
  import opened Systems
  import opened Invariants
  import opened Convergence
  import opened Discipline

  /** A subscription that was passed over at `t` and is still waiting. */
  ghost predicate Waits(sub: Subscription, t: nat, ackWindow: nat) {
    sub.needsSnapshot ||
    (sub.pending.HasState() &&
     (!sub.IsWindowBlocked(ackWindow) || (sub.stalledSince.Some? && sub.stalledSince.value <= t)))
  }

  ghost predicate StalledBy(sub: Subscription, t: nat) {
    sub.stalledSince.Some? ==> sub.stalledSince.value <= t
  }

  /** A client that waits keeps waiting until it is handed something. */
  lemma WaitsKept(sys: System, e: Event, c: ClientId, sub: Subscription, sub': Subscription, t: nat)
    requires Enabled(sys, e) && Moves(sys, e, c, sub, sub') && sub.lastSent <= sys.server.seqNo
    requires Waits(sub, t, sys.server.publisher.config.ackWindow)
    ensures sub'.lastSent > sub.lastSent || Waits(sub', t, sys.server.publisher.config.ackWindow)
  {
    hide Enabled, Next;
  }

  /** A flush hands a client with something pending a frame, or starts its wait. */
  lemma FlushStartsWait(sys: System, c: ClientId, sub: Subscription, sub': Subscription, t: nat)
    requires Enabled(sys, Flush(t)) && Moves(sys, Flush(t), c, sub, sub') && sub.lastSent <= sys.server.seqNo
    requires ShouldFlush(sys.server.publisher, t) && StalledBy(sub, t)
    requires sub.needsSnapshot || sub.pending.HasState()
    ensures sub'.lastSent > sub.lastSent || Waits(sub', t, sys.server.publisher.config.ackWindow)
  {
    hide Enabled, Next, ShouldFlush;
  }

  /** A flush past the grace period ends every wait. */
  lemma FlushEndsWait(sys: System, c: ClientId, sub: Subscription, sub': Subscription, t: nat, t': nat)
    requires Enabled(sys, Flush(t')) && Moves(sys, Flush(t'), c, sub, sub') && sub.lastSent <= sys.server.seqNo
    requires ShouldFlush(sys.server.publisher, t') && Waits(sub, t, sys.server.publisher.config.ackWindow)
    requires t' >= t + sys.server.publisher.config.slowClientSnapshotAfter
    ensures sub'.lastSent > sub.lastSent
  {
    hide Enabled, Next, ShouldFlush;
  }

  lemma StalledStep(sys: System, e: Event, c: ClientId, sub: Subscription, sub': Subscription, t: nat)
    requires Enabled(sys, e) && Moves(sys, e, c, sub, sub') && StalledBy(sub, t) && (e.Flush? ==> e.now <= t)
    ensures StalledBy(sub', t)
  {
    hide Enabled, Next, ShouldFlush;
  }

  ghost predicate AllStalledBy(sys: System, t: nat) {
    forall c :: c in sys.server.publisher.subs ==> StalledBy(sys.server.publisher.subs[c], t)
  }

  lemma AllStalledStep(sys: System, e: Event, t: nat)
    requires Inv(sys) && Enabled(sys, e) && AllStalledBy(sys, t) && (e.Flush? ==> e.now <= t)
    ensures sys.server.screen.Valid() && AllStalledBy(Next(sys, e), t)
  {
    hide Inv, Next, Moves, Enabled, StalledBy;
    InvServer(sys);
    var sys' := Next(sys, e);
    forall c | c in sys'.server.publisher.subs
      ensures StalledBy(sys'.server.publisher.subs[c], t)
    {
      if c in sys.server.publisher.subs && e != Detach(c) {
        StepMoves(sys, e, c);
        StalledStep(sys, e, c, sys.server.publisher.subs[c], sys'.server.publisher.subs[c], t);
      } else {
        NewWindow(sys, e, c);
        NotStalled(sys'.server.publisher.subs[c], t);
      }
    }
  }

  lemma NotStalled(sub: Subscription, t: nat)
    requires sub.stalledSince.None?
    ensures StalledBy(sub, t)
  {
  }

  /** Flushes happen at times that never go back. */
  ghost predicate ClockForward(events: seq<Event>) {
    forall j, k :: 0 <= j < k < |events| && events[j].Flush? && events[k].Flush? ==> events[j].now <= events[k].now
  }

  lemma {:induction false} RunStalled(states: seq<System>, events: seq<Event>, i: nat, k: nat)
    requires IsRun(states, events) && ClockForward(events) && k <= i < |events| && events[i].Flush?
    ensures AllStalledBy(states[k], events[i].now)
  {
    hide Next, AllStalledBy, Enabled;
    if k == 0 {
      NothingStalled(states[0], events[i].now);
    } else {
      RunStalled(states, events, i, k - 1);
      RunInv(states, events, k - 1);
      assert Follows(states[k - 1], events[k - 1], states[k]);
      AllStalledStep(states[k - 1], events[k - 1], events[i].now);
    }
  }

  lemma NothingStalled(sys: System, t: nat)
    requires Initial(sys)
    ensures AllStalledBy(sys, t)
  {
  }

  /** `c` is attached at state `i` and is not detached before state `k`. */
  ghost predicate StaysAttached(states: seq<System>, events: seq<Event>, c: ClientId, i: nat, k: nat)
    requires i <= k <= |events| < |states|
  {
    c in states[i].server.publisher.subs && forall j :: i <= j < k ==> events[j] != Detach(c)
  }

  lemma RunStep(states: seq<System>, events: seq<Event>, c: ClientId, k: nat)
    requires IsRun(states, events) && k < |events|
    requires c in states[k].server.publisher.subs && events[k] != Detach(c)
    ensures Enabled(states[k], events[k]) && c in states[k + 1].server.publisher.subs
    ensures var sub, sub' := states[k].server.publisher.subs[c], states[k + 1].server.publisher.subs[c];
            && Moves(states[k], events[k], c, sub, sub')
            && sub.lastAcked <= sub.lastSent <= states[k].server.seqNo
            && sub.lastSent <= sub'.lastSent
            && states[k + 1].server.publisher.config == states[k].server.publisher.config
  {
    hide Next, Moves, Enabled;
    RunInv(states, events, k);
    assert Follows(states[k], events[k], states[k + 1]);
    StepMoves(states[k], events[k], c);
    assert SubOk(states[k].server, states[k].server.publisher.subs[c]);
    CursorMoves(states[k], events[k], c, states[k].server.publisher.subs[c], states[k + 1].server.publisher.subs[c]);
    ConfigKept(states[k], events[k]);
  }

  /** After the first flush the client has been handed something or still waits. */
  lemma {:induction false} RunWaits(states: seq<System>, events: seq<Event>, c: ClientId, i: nat, k: nat)
    requires IsRun(states, events) && ClockForward(events) && i < k <= |events|
    requires StaysAttached(states, events, c, i, k)
    requires events[i].Flush? && ShouldFlush(states[i].server.publisher, events[i].now)
    requires var sub := states[i].server.publisher.subs[c]; sub.needsSnapshot || sub.pending.HasState()
    ensures c in states[k].server.publisher.subs
    ensures var sub, sub' := states[i].server.publisher.subs[c], states[k].server.publisher.subs[c];
            && states[k].server.publisher.config == states[i].server.publisher.config
            && (sub'.lastSent > sub.lastSent
                || (sub'.lastSent == sub.lastSent
                    && Waits(sub', events[i].now, states[k].server.publisher.config.ackWindow)))
  {
    hide Next, Moves, Enabled, Waits, ShouldFlush, StalledBy;
    if k == i + 1 {
      RunStep(states, events, c, i);
      RunStalled(states, events, i, i);
      FlushStartsWait(states[i], c, states[i].server.publisher.subs[c], states[k].server.publisher.subs[c], events[i].now);
    } else {
      RunWaits(states, events, c, i, k - 1);
      RunStep(states, events, c, k - 1);
      var sub, sub' := states[k - 1].server.publisher.subs[c], states[k].server.publisher.subs[c];
      if Waits(sub, events[i].now, states[k - 1].server.publisher.config.ackWindow) {
        WaitsKept(states[k - 1], events[k - 1], c, sub, sub', events[i].now);
      }
    }
  }

  /** No starvation: with a clock that never goes back, a subscription that has
      something other than a bell pending at a flush at `t`, and stays attached,
      has been handed a sequenced frame by the end of any flush at least the
      grace period later. */
  lemma NoStarvation(states: seq<System>, events: seq<Event>, c: ClientId, i: nat, j: nat)
    requires IsRun(states, events) && ClockForward(events) && i < j < |events|
    requires StaysAttached(states, events, c, i, j)
    requires events[i].Flush? && ShouldFlush(states[i].server.publisher, events[i].now)
    requires events[j].Flush? && ShouldFlush(states[j].server.publisher, events[j].now)
    requires events[j].now >= events[i].now + states[i].server.publisher.config.slowClientSnapshotAfter
    requires var sub := states[i].server.publisher.subs[c]; sub.needsSnapshot || sub.pending.HasState()
    ensures c in states[j + 1].server.publisher.subs
    ensures states[j + 1].server.publisher.subs[c].lastSent > states[i].server.publisher.subs[c].lastSent
  {
    hide Next, Moves, Enabled, Waits, ShouldFlush;
    RunWaits(states, events, c, i, j);
    RunStep(states, events, c, j);
    var sub, sub' := states[j].server.publisher.subs[c], states[j + 1].server.publisher.subs[c];
    if Waits(sub, events[i].now, states[j].server.publisher.config.ackWindow) {
      FlushEndsWait(states[j], c, sub, sub', events[i].now, events[j].now);
    }
  }
}
