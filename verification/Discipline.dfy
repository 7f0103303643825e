/** Flow control over whole runs: sequence numbers, the ack window, and that a
    slow client is never starved. */
module Discipline {
  import opened Wire
  import opened Engine
  import opened Publishing
  import opened Surfaces
  import opened Systems
  import opened Invariants
  import opened FlushLemmas
  import opened Convergence

  // ------------------------------------------------------------ one subscription

  /** A step that sends this subscription nothing and hears nothing from it. */
  ghost predicate Gentle(sub: Subscription, sub': Subscription) {
    && sub'.lastSent == sub.lastSent && sub'.lastAcked == sub.lastAcked
    && (sub.needsSnapshot ==> sub'.needsSnapshot)
    && (sub'.needsSnapshot || (
          && (sub.pending.HasState() ==> sub'.pending.HasState())
          && sub'.stalledSince == sub.stalledSince))
    && (sub'.stalledSince == sub.stalledSince || sub'.stalledSince.None?)
  }

  /** What a flush made of a subscription, its style cursor and a forced
      Snapshot afterwards aside. */
  ghost predicate FlushedTo(s: SurfaceState, c: ClientId, sub: Subscription, now: nat, sub': Subscription) {
    var flushed := FlushedOne(c, sub, s.publisher.config, s.publisher.rows, now, s.seqNo + 1, s.styles.generation).0;
    && sub'.lastSent == flushed.lastSent && sub'.lastAcked == flushed.lastAcked && sub'.stalledSince == flushed.stalledSince
    && (flushed.needsSnapshot ==> sub'.needsSnapshot)
    && (flushed.pending.HasState() ==> sub'.needsSnapshot || sub'.pending.HasState())
  }

  /** How one subscription that stays attached moves in one step. */
  ghost predicate Moves(sys: System, e: Event, c: ClientId, sub: Subscription, sub': Subscription)
    requires Enabled(sys, e)
  {
    match e
    case Exit(_) => sub' == EventSent(sub, sys.server.seqNo + 1)
    case DeliverUp(d, now) =>
      if d == c && sys.links[d].up[0].AckMsg?
      then sub' == Acked(sub, sys.links[d].up[0].seqNo, now, sys.server.publisher.config.ackWindow)
      else Gentle(sub, sub')
    case Flush(now) =>
      if ShouldFlush(sys.server.publisher, now) then FlushedTo(sys.server, c, sub, now, sub') else sub' == sub
    case _ => Gentle(sub, sub')
  }

  lemma FlushMoves(sys: System, now: nat, c: ClientId)
    requires Inv(sys) && c in sys.server.publisher.subs && ShouldFlush(sys.server.publisher, now)
    ensures var sys' := AfterFlush(sys, now);
            && c in sys'.server.publisher.subs
            && FlushedTo(sys.server, c, sys.server.publisher.subs[c], now, sys'.server.publisher.subs[c])
            && sys'.server.seqNo == sys.server.seqNo + (if EmissionsAt(sys.server, now) == [] then 0 else 1)
  {
    hide FlushedOne, Emissions, FrameStep;
    var s, emissions := sys.server, EmissionsAt(sys.server, now);
    BuiltSubs(LoopStart(s, now), emissions, |emissions|);
    BuiltSeq(LoopStart(s, now), emissions, |emissions|);
  }

  lemma FrameStepSeq(s: SurfaceState, e: Emission)
    requires 1 <= s.screen.rows == |s.screen.lines|
    ensures FrameStep(s, e).state.seqNo == s.seqNo && FrameStep(s, e).state.status == s.status
  {
    hide Rendered;
  }

  lemma {:induction false} BuiltSeq(s: SurfaceState, emissions: seq<Emission>, n: nat)
    requires 1 <= s.screen.rows == |s.screen.lines| && n <= |emissions|
    ensures Built(s, emissions, n).state.seqNo == s.seqNo && Built(s, emissions, n).state.status == s.status
  {
    hide FrameStep;
    if n == 0 {
    } else {
      BuiltSeq(s, emissions, n - 1);
      FrameStepSeq(Built(s, emissions, n - 1).state, emissions[n - 1]);
    }
  }

  lemma FeedMoves(s: SurfaceState, screen: Screen, damage: Damage, titled: bool, bell: bool, c: ClientId)
    requires ServerOk(s) && c in s.publisher.subs
    ensures var s' := AfterFeed(s, screen, damage, titled, bell);
            c in s'.publisher.subs && Gentle(s.publisher.subs[c], s'.publisher.subs[c])
  {
    hide AfterFeed;
    FedSub(s, screen, damage, titled, bell, c);
    assert SubOk(s, s.publisher.subs[c]);
    assert 0 in Below(s.screen.rows);
  }

  lemma ResizeMoves(s: SurfaceState, size: Size, screen: Screen, c: ClientId)
    requires c in s.publisher.subs
    ensures var s' := AfterResize(s, size, screen);
            c in s'.publisher.subs && Gentle(s.publisher.subs[c], s'.publisher.subs[c])
  {
  }

  lemma ResetMoves(s: SurfaceState, screen: Screen, c: ClientId)
    requires c in s.publisher.subs
    ensures var s' := AfterReset(s, screen);
            c in s'.publisher.subs && Gentle(s.publisher.subs[c], s'.publisher.subs[c])
  {
  }

  lemma HistoryMoves(s: SurfaceState, lines: seq<Line>, c: ClientId)
    requires c in s.publisher.subs
    ensures var s' := AfterHistory(s, lines);
            c in s'.publisher.subs && Gentle(s.publisher.subs[c], s'.publisher.subs[c])
  {
  }

  lemma QuietServer(sys: System, now: nat)
    requires sys.server.screen.Valid() && !ShouldFlush(sys.server.publisher, now)
    ensures AfterFlush(sys, now).server == sys.server
  {
  }

  lemma AttachMoves(s: SurfaceState, client: ClientId, mode: AttachMode, now: nat, c: ClientId)
    requires c in s.publisher.subs
    ensures var s' := OnAttach(s, client, mode, now);
            c in s'.publisher.subs && Gentle(s.publisher.subs[c], s'.publisher.subs[c])
  {
  }

  lemma ModeMoves(sub: Subscription, mode: AttachMode)
    ensures Gentle(sub, WithMode(sub, mode)) && Gentle(sub, sub)
  {
  }

  lemma UpMoves(sys: System, d: ClientId, now: nat, c: ClientId)
    requires d in sys.links && sys.links[d].up != [] && c in sys.server.publisher.subs
    ensures var sub, s' := sys.server.publisher.subs[c], OnUp(sys.server, d, sys.links[d].up[0], now);
            && c in s'.publisher.subs
            && if d == c && sys.links[d].up[0].AckMsg?
               then s'.publisher.subs[c] == Acked(sub, sys.links[d].up[0].seqNo, now, sys.server.publisher.config.ackWindow)
               else Gentle(sub, s'.publisher.subs[c])
  {
    hide OnAttach, Acked, Gentle;
    ModeMoves(sys.server.publisher.subs[c], Active);
    if sys.links[d].up[0].AttachMsg? {
      AttachMoves(sys.server, d, sys.links[d].up[0].mode, now, c);
    }
  }

  /** A step of some client, as another or the same client's subscription sees it. */
  lemma ClientMoves(sys: System, e: Event, c: ClientId)
    requires sys.server.screen.Valid() && Enabled(sys, e) && c in sys.server.publisher.subs && e != Detach(c)
    requires e.Connect? || e.Attach? || e.SwitchMode? || e.Detach? || e.DeliverDown? || e.DeliverUp? || e.Exit?
    ensures var sys' := Next(sys, e);
            && c in sys'.server.publisher.subs
            && Moves(sys, e, c, sys.server.publisher.subs[c], sys'.server.publisher.subs[c])
  {
    hide Gentle, OnAttach, OnUp, Acked, WithMode, Pushed, Broadcast, PoppedDown, FlushedTo, AfterFlush;
    var sub := sys.server.publisher.subs[c];
    ModeMoves(sub, Active);
    match e {
      case Attach(d, mode, now) => AttachMoves(sys.server, d, mode, now, c);
      case SwitchMode(d, mode) => ModeMoves(sub, mode);
      case DeliverUp(d, now) => UpMoves(sys, d, now, c);
      case _ =>
    }
  }

  /** Every step moves a subscription that stays attached as described. */
  lemma StepMoves(sys: System, e: Event, c: ClientId)
    requires Inv(sys) && Enabled(sys, e) && c in sys.server.publisher.subs && e != Detach(c)
    ensures var sys' := Next(sys, e);
            && c in sys'.server.publisher.subs
            && Moves(sys, e, c, sys.server.publisher.subs[c], sys'.server.publisher.subs[c])
  {
    hide FlushedTo, FlushedOne, AfterFlush, AfterFeed, AfterResize, AfterReset, AfterHistory, Advances, ShouldFlush, Inv, Gentle, Acked;
    InvServer(sys);
    var s := sys.server;
    match e
    case Flush(now) =>
      if ShouldFlush(s.publisher, now) {
        FlushMoves(sys, now, c);
      } else {
        QuietServer(sys, now);
      }
    case Feed(screen, damage, titled, bell) => FeedMoves(s, screen, damage, titled, bell, c);
    case Resize(size, screen) => ResizeMoves(s, size, screen, c);
    case Reset(screen) => ResetMoves(s, screen, c);
    case FetchHistory(from, count) => HistoryMoves(s, HistoryLines(s.screen, from, count), c);
    case _ => ClientMoves(sys, e, c);
  }

  // ------------------------------------------------------------ sequence discipline

  lemma CursorMoves(sys: System, e: Event, c: ClientId, sub: Subscription, sub': Subscription)
    requires Enabled(sys, e) && Moves(sys, e, c, sub, sub')
    requires sub.lastAcked <= sub.lastSent <= sys.server.seqNo
    ensures sub.lastSent <= sub'.lastSent && sub.lastAcked <= sub'.lastAcked
    ensures sub'.lastSent == sub.lastSent || (sub'.lastSent == sys.server.seqNo + 1 && (e.Flush? || e.Exit?))
    ensures e.Exit? ==> sub'.lastSent == sys.server.seqNo + 1
  {
    hide Enabled, Next;
  }

  lemma ServerSeq(sys: System, e: Event)
    requires Inv(sys) && Enabled(sys, e)
    ensures sys.server.screen.Valid()
    ensures var seqNo' := Next(sys, e).server.seqNo;
            sys.server.seqNo <= seqNo' <= sys.server.seqNo + 1
  {
    hide Inv, Emissions, FrameStep, Posted, HandedAfter, PackRows;
    InvServer(sys);
    if e.Flush? {
      var start := LoopStart(sys.server, e.now);
      var emissions := EmissionsAt(sys.server, e.now);
      BuiltSeq(start, emissions, |emissions|);
    }
  }

  /** Sequence discipline: no cursor ever goes back, the acknowledged one never
      passes the sent one nor the sent one the Surface's, and a step that sends
      anything sequenced stamps it with the one number it consumed. */
  lemma SequenceDiscipline(sys: System, e: Event, c: ClientId)
    requires Reachable(sys) && Enabled(sys, e) && c in sys.server.publisher.subs && e != Detach(c)
    ensures sys.server.screen.Valid()
    ensures var sub, sys' := sys.server.publisher.subs[c], Next(sys, e);
            && sub.lastAcked <= sub.lastSent <= sys.server.seqNo <= sys'.server.seqNo <= sys.server.seqNo + 1
            && c in sys'.server.publisher.subs
            && var sub' := sys'.server.publisher.subs[c];
               && sub.lastSent <= sub'.lastSent && sub.lastAcked <= sub'.lastAcked <= sub'.lastSent
               && (sub'.lastSent == sub.lastSent || sub'.lastSent == sys'.server.seqNo == sys.server.seqNo + 1)
  {
    hide Moves, Next, Enabled, Emissions, FlushedOne;
    ReachableInv(sys);
    InvServer(sys);
    var sys' := Next(sys, e);
    StepMoves(sys, e, c);
    StepKeeps(sys, e);
    InvServer(sys');
    var sub, sub' := sys.server.publisher.subs[c], sys'.server.publisher.subs[c];
    assert SubOk(sys.server, sub) && SubOk(sys'.server, sub');
    CursorMoves(sys, e, c, sub, sub');
    ServerSeq(sys, e);
  }

  // ------------------------------------------------------------ the ack window

  /** The frame of one emission: addressed to its client, stamped with the
      server's number, and a Delta only for a Delta emission. */
  lemma FrameStepFrames(s: SurfaceState, e: Emission)
    requires 1 <= s.screen.rows == |s.screen.lines|
    ensures forall f :: f in FrameStep(s, e).frames ==> FrameOf(s.seqNo, e, f)
  {
    hide Rendered, PackRows, LinesOf, DirtyRows;
  }

  ghost predicate FrameOf(seqNo: nat, e: Emission, f: ClientFrame) {
    && f.client == e.client
    && match f.frame
       case SnapshotMsg(snap) => snap.seqNo == seqNo && !e.kind.BellOnly?
       case DeltaMsg(d) => d.seqNo == seqNo && e.kind.DeltaKind?
       case BellMsg => e.bell
       case _ => false
  }

  /** Every frame of a flush belongs to one of its emissions, and all its
      sequenced frames carry the one number the flush consumed. */
  lemma {:induction false} BuiltFrames(s: SurfaceState, emissions: seq<Emission>, n: nat)
    requires 1 <= s.screen.rows == |s.screen.lines| && n <= |emissions|
    ensures forall f :: f in Built(s, emissions, n).frames ==> exists k :: 0 <= k < n && FrameOf(s.seqNo, emissions[k], f)
  {
    hide FrameStep, FrameOf;
    if n == 0 {
    } else {
      BuiltFrames(s, emissions, n - 1);
      BuiltSeq(s, emissions, n - 1);
      var front := Built(s, emissions, n - 1);
      var e := emissions[n - 1];
      FrameStepFrames(front.state, e);
      BellsFrame(s.seqNo, e);
      forall f | f in Built(s, emissions, n).frames
        ensures exists k :: 0 <= k < n && FrameOf(s.seqNo, emissions[k], f)
      {
        if f !in front.frames {
          assert FrameOf(s.seqNo, emissions[n - 1], f);
        }
      }
    }
  }

  lemma BellsFrame(seqNo: nat, e: Emission)
    ensures forall f :: f in BellsOf(e) ==> FrameOf(seqNo, e, f)
  {
  }

  /** The number a frame carries. */
  function NumberOf(frame: Frame): Option<nat> {
    match frame
    case SnapshotMsg(snap) => Some(snap.seqNo)
    case DeltaMsg(d) => Some(d.seqNo)
    case ExitedMsg(seqNo, _) => Some(seqNo)
    case _ => None
  }

  /** A flush that emits consumes exactly one number, shared by all its
      sequenced frames; any other sends nothing and moves no cursor. */
  lemma FlushNumbers(s: SurfaceState, now: nat)
    requires ServerOk(s)
    ensures var (s', frames) := Flushed(s, now);
            if ShouldFlush(s.publisher, now) && EmissionsAt(s, now) != []
            then s'.seqNo == s.seqNo + 1 && forall f :: f in frames ==> NumberOf(f.frame) in {None, Some(s'.seqNo)}
            else s'.seqNo == s.seqNo && frames == []
                 && forall c :: c in s.publisher.subs ==>
                      && c in s'.publisher.subs && s'.publisher.subs[c].lastSent == s.publisher.subs[c].lastSent
                      && s'.publisher.subs[c].lastAcked == s.publisher.subs[c].lastAcked
  {
    hide FrameStep, FlushedOne, Emissions;
    var emissions := EmissionsAt(s, now);
    if ShouldFlush(s.publisher, now) && emissions != [] {
      BuiltFrames(LoopStart(s, now), emissions, |emissions|);
      BuiltSeq(LoopStart(s, now), emissions, |emissions|);
    } else if ShouldFlush(s.publisher, now) {
      forall c | c in s.publisher.subs
        ensures var sub' := FlushedSub(s.publisher, c, now, s.seqNo + 1, s.styles.generation).0;
                sub'.lastSent == s.publisher.subs[c].lastSent && sub'.lastAcked == s.publisher.subs[c].lastAcked
      {
        if FlushedSub(s.publisher, c, now, s.seqNo + 1, s.styles.generation).1.Some? {
          OwedEmission(s.publisher, now, s.seqNo + 1, s.styles.generation, c);
        }
        UnowedCursors(c, s.publisher.subs[c], s.publisher.config, s.publisher.rows, now, s.seqNo + 1, s.styles.generation);
      }
    }
  }

  lemma UnowedCursors(c: ClientId, sub: Subscription, config: PublisherConfig, rows: nat, now: nat, seqNo: nat, generation: nat)
    ensures var (sub', owed) := FlushedOne(c, sub, config, rows, now, seqNo, generation);
            owed.None? ==> sub'.lastSent == sub.lastSent && sub'.lastAcked == sub.lastAcked
  {
  }

  lemma DeltaFlush(c: ClientId, sub: Subscription, config: PublisherConfig, rows: nat, now: nat, seqNo: nat, generation: nat)
    requires var owed := FlushedOne(c, sub, config, rows, now, seqNo, generation).1; owed.Some? && owed.value.kind.DeltaKind?
    ensures var sub' := FlushedOne(c, sub, config, rows, now, seqNo, generation).0;
            !sub.IsWindowBlocked(config.ackWindow) && sub'.lastSent == seqNo && sub'.lastAcked == sub.lastAcked
  {
  }

  /** A Delta is handed to `c` only by a flush that found its window open: fewer
      than a window of numbers between its acknowledged and its last frame. */
  lemma DeltaMeansOpen(s: SurfaceState, now: nat, c: ClientId)
    requires 1 <= s.screen.rows == |s.screen.lines| && c in s.publisher.subs
    requires DeltaSeqs(Flushed(s, now).1, c) != {}
    ensures ShouldFlush(s.publisher, now)
    ensures DeltaSeqs(Flushed(s, now).1, c) == {s.seqNo + 1}
    ensures var owed := FlushedSub(s.publisher, c, now, s.seqNo + 1, s.styles.generation).1;
            owed.Some? && owed.value.kind.DeltaKind?
    ensures !s.publisher.subs[c].IsWindowBlocked(s.publisher.config.ackWindow)
  {
    hide Emissions, FlushedOne, FrameStep;
    var emissions, frames := EmissionsAt(s, now), Flushed(s, now).1;
    BuiltFrames(LoopStart(s, now), emissions, |emissions|);
    forall k | 0 <= k < |frames| && frames[k].client == c && frames[k].frame.DeltaMsg?
      ensures frames[k].frame.delta.seqNo == s.seqNo + 1
      ensures var owed := FlushedSub(s.publisher, c, now, s.seqNo + 1, s.styles.generation).1;
              owed.Some? && owed.value.kind.DeltaKind?
    {
      assert frames[k] in frames;
      var j :| 0 <= j < |emissions| && FrameOf(s.seqNo + 1, emissions[j], frames[k]);
      EmissionOwed(s.publisher, now, s.seqNo + 1, s.styles.generation, j);
    }
    var seqNo :| seqNo in DeltaSeqs(frames, c);
    DeltaFlush(c, s.publisher.subs[c], s.publisher.config, s.publisher.rows, now, s.seqNo + 1, s.styles.generation);
  }

  /** The Deltas in a set not yet acknowledged. */
  ghost function InFlight(handed: set<nat>, acked: nat): set<nat> {
    set d | d in handed && d > acked
  }

  lemma {:induction false} IntervalSize(handed: set<nat>, acked: nat, sent: nat)
    requires acked <= sent && forall d :: d in handed ==> d <= sent
    ensures |InFlight(handed, acked)| <= sent - acked
    decreases sent - acked
  {
    if acked < sent {
      IntervalSize(handed, acked + 1, sent);
      assert InFlight(handed, acked) <= InFlight(handed, acked + 1) + {acked + 1};
      SubsetSize(InFlight(handed, acked), InFlight(handed, acked + 1) + {acked + 1});
    } else {
      assert InFlight(handed, acked) == {};
    }
  }

  lemma {:induction false} SubsetSize(a: set<nat>, b: set<nat>)
    requires a <= b
    ensures |a| <= |b|
  {
    if a != {} {
      var x :| x in a;
      SubsetSize(a - {x}, b - {x});
    }
  }

  /** The window of one subscription: nothing handed is above the cursor, and
      at most `ackWindow` Deltas are unacknowledged. */
  ghost predicate WindowOk(handed: set<nat>, sub: Subscription, ackWindow: nat) {
    && (forall d :: d in handed ==> 1 <= d <= sub.lastSent)
    && |InFlight(handed, sub.lastAcked)| <= ackWindow
  }

  ghost predicate HandedOk(sys: System) {
    forall c :: c in sys.server.publisher.subs ==>
      c in sys.handed && WindowOk(sys.handed[c], sys.server.publisher.subs[c], sys.server.publisher.config.ackWindow)
  }

  lemma WindowKept(handed: set<nat>, sub: Subscription, sub': Subscription, ackWindow: nat)
    requires WindowOk(handed, sub, ackWindow) && sub.lastSent <= sub'.lastSent && sub.lastAcked <= sub'.lastAcked
    ensures WindowOk(handed, sub', ackWindow)
  {
    SubsetSize(InFlight(handed, sub'.lastAcked), InFlight(handed, sub.lastAcked));
  }

  lemma WindowGrows(handed: set<nat>, sub: Subscription, sub': Subscription, ackWindow: nat)
    requires WindowOk(handed, sub, ackWindow) && !sub.IsWindowBlocked(ackWindow) && sub.lastAcked <= sub.lastSent
    requires sub.lastSent < sub'.lastSent && sub'.lastAcked == sub.lastAcked
    ensures WindowOk(handed + {sub'.lastSent}, sub', ackWindow)
  {
    IntervalSize(handed, sub.lastAcked, sub.lastSent);
    SubsetSize(InFlight(handed + {sub'.lastSent}, sub.lastAcked), InFlight(handed, sub.lastAcked) + {sub'.lastSent});
  }

  /** What the ghost record of handed Deltas becomes. */
  lemma HandedMoves(sys: System, e: Event, c: ClientId)
    requires Inv(sys) && Enabled(sys, e) && c in sys.server.publisher.subs && c in sys.handed && e != Detach(c)
    ensures sys.server.screen.Valid()
    ensures c in Next(sys, e).handed
    ensures Next(sys, e).handed[c]
              == sys.handed[c] + if e.Flush? then DeltaSeqs(Flushed(sys.server, e.now).1, c) else {}
  {
    hide Inv, Flushed, DeltaSeqs, Posted, AfterFeed, AfterResize, AfterReset, AfterHistory, AfterExit, OnUp, WithSub, Pushed, Broadcast, PoppedDown;
    InvServer(sys);
  }

  lemma FlushWindow(sys: System, now: nat, c: ClientId)
    requires Inv(sys) && c in sys.server.publisher.subs && c in sys.handed
    requires WindowOk(sys.handed[c], sys.server.publisher.subs[c], sys.server.publisher.config.ackWindow)
    ensures sys.server.screen.Valid()
    ensures var sys' := AfterFlush(sys, now);
            && c in sys'.server.publisher.subs
            && WindowOk(sys.handed[c] + DeltaSeqs(Flushed(sys.server, now).1, c), sys'.server.publisher.subs[c],
                        sys.server.publisher.config.ackWindow)
  {
    hide WindowOk, FlushedOne, Emissions, AfterFlush, Flushed, DeltaSeqs, Synced;
    InvServer(sys);
    var s, sub := sys.server, sys.server.publisher.subs[c];
    StepMoves(sys, Flush(now), c);
    assert AfterFlush(sys, now) == Next(sys, Flush(now));
    var sub' := AfterFlush(sys, now).server.publisher.subs[c];
    assert SubOk(s, sub);
    CursorMoves(sys, Flush(now), c, sub, sub');
    if DeltaSeqs(Flushed(s, now).1, c) == {} {
      assert sys.handed[c] + {} == sys.handed[c];
      WindowKept(sys.handed[c], sub, sub', s.publisher.config.ackWindow);
    } else {
      DeltaMeansOpen(s, now, c);
      DeltaFlush(c, sub, s.publisher.config, s.publisher.rows, now, s.seqNo + 1, s.styles.generation);
      WindowGrows(sys.handed[c], sub, sub', s.publisher.config.ackWindow);
    }
  }

  lemma ConfigKept(sys: System, e: Event)
    requires Inv(sys) && Enabled(sys, e)
    ensures sys.server.screen.Valid()
    ensures Next(sys, e).server.publisher.config == sys.server.publisher.config
  {
    hide Inv, Built, FlushedOne, Emissions, Posted, HandedAfter, PackRows, Pushed, Broadcast, PoppedDown, Marked;
    InvServer(sys);
    if e.Flush? {
      BuiltConfig(LoopStart(sys.server, e.now), EmissionsAt(sys.server, e.now), |EmissionsAt(sys.server, e.now)|);
    }
  }

  lemma {:induction false} BuiltConfig(s: SurfaceState, emissions: seq<Emission>, n: nat)
    requires 1 <= s.screen.rows == |s.screen.lines| && n <= |emissions|
    ensures Built(s, emissions, n).state.publisher.config == s.publisher.config
  {
    hide FrameStep;
    if n == 0 {
    } else {
      BuiltConfig(s, emissions, n - 1);
      FrameStepConfig(Built(s, emissions, n - 1).state, emissions[n - 1]);
    }
  }

  lemma FrameStepConfig(s: SurfaceState, e: Emission)
    requires 1 <= s.screen.rows == |s.screen.lines|
    ensures FrameStep(s, e).state.publisher.config == s.publisher.config
  {
    hide Rendered;
  }

  lemma WindowStep(sys: System, e: Event, c: ClientId)
    requires Inv(sys) && HandedOk(sys) && Enabled(sys, e) && c in sys.server.publisher.subs && e != Detach(c)
    ensures sys.server.screen.Valid()
    ensures var sys' := Next(sys, e);
            && c in sys'.server.publisher.subs && c in sys'.handed
            && WindowOk(sys'.handed[c], sys'.server.publisher.subs[c], sys.server.publisher.config.ackWindow)
  {
    hide WindowOk, Next, Moves, Synced, AfterFlush, Enabled;
    InvServer(sys);
    HandedMoves(sys, e, c);
    StepMoves(sys, e, c);
    var sub, sub' := sys.server.publisher.subs[c], Next(sys, e).server.publisher.subs[c];
    if e.Flush? {
      FlushWindow(sys, e.now, c);
      NextIsFlush(sys, e);
    } else {
      assert SubOk(sys.server, sub);
      CursorMoves(sys, e, c, sub, sub');
      assert sys.handed[c] + {} == sys.handed[c];
      WindowKept(sys.handed[c], sub, sub', sys.server.publisher.config.ackWindow);
    }
  }

  lemma NextIsFlush(sys: System, e: Event)
    requires e.Flush? && Enabled(sys, e) && sys.server.screen.Valid()
    ensures Next(sys, e) == AfterFlush(sys, e.now)
  {
  }

  /** A newly attached subscription has been handed nothing and is not stalled. */
  lemma NewWindow(sys: System, e: Event, c: ClientId)
    requires Inv(sys) && Enabled(sys, e)
    ensures sys.server.screen.Valid()
    ensures (c !in sys.server.publisher.subs || e == Detach(c)) && c in Next(sys, e).server.publisher.subs ==>
              && c in Next(sys, e).handed && Next(sys, e).handed[c] == {}
              && Next(sys, e).server.publisher.subs[c].stalledSince.None?
  {
    hide Inv, AfterFlush, AfterFeed, AfterResize, AfterReset, AfterHistory;
    InvServer(sys);
    match e
    case Flush(now) =>
      FlushKeys(sys, now);
    case Feed(screen, damage, titled, bell) => FeedServer(sys.server, screen, damage, titled, bell);
    case Resize(size, screen) => ResizeKeeps(sys.server, size, screen);
    case Reset(screen) => ResetKeeps(sys.server, screen);
    case FetchHistory(from, count) => HistoryKeeps(sys.server, HistoryLines(sys.server.screen, from, count));
    case _ =>
  }

  lemma FlushKeys(sys: System, now: nat)
    requires sys.server.screen.Valid()
    ensures AfterFlush(sys, now).server.publisher.subs.Keys == sys.server.publisher.subs.Keys
  {
    hide FrameStep, Emissions, Posted;
    var emissions := EmissionsAt(sys.server, now);
    BuiltSubs(LoopStart(sys.server, now), emissions, |emissions|);
  }

  lemma HandedKept(sys: System, e: Event)
    requires Inv(sys) && HandedOk(sys) && Enabled(sys, e)
    ensures sys.server.screen.Valid() && HandedOk(Next(sys, e))
  {
    hide WindowOk, Next, Enabled, Inv;
    InvServer(sys);
    ConfigKept(sys, e);
    var sys' := Next(sys, e);
    forall c | c in sys'.server.publisher.subs
      ensures c in sys'.handed && WindowOk(sys'.handed[c], sys'.server.publisher.subs[c], sys'.server.publisher.config.ackWindow)
    {
      if c in sys.server.publisher.subs && e != Detach(c) {
        WindowStep(sys, e, c);
      } else {
        NewWindow(sys, e, c);
        EmptyWindow(sys'.server.publisher.subs[c], sys'.server.publisher.config.ackWindow);
      }
    }
  }

  lemma EmptyWindow(sub: Subscription, ackWindow: nat)
    ensures WindowOk({}, sub, ackWindow)
  {
    assert InFlight({}, sub.lastAcked) == {};
  }

  /** Ack-window bound: in every reachable state at most `ackWindow` of the
      Deltas handed to a subscription lie above its acknowledged number, though
      the code only compares two sequence numbers. */
  lemma AckWindowBound(sys: System, c: ClientId)
    requires Reachable(sys) && c in sys.server.publisher.subs
    ensures c in sys.handed
    ensures |InFlight(sys.handed[c], sys.server.publisher.subs[c].lastAcked)| <= sys.server.publisher.config.ackWindow
  {
    var states, events :| IsRun(states, events) && states[|events|] == sys;
    RunHanded(states, events, |events|);
  }

  lemma {:induction false} RunHanded(states: seq<System>, events: seq<Event>, k: nat)
    requires IsRun(states, events) && k < |states|
    ensures HandedOk(states[k])
  {
    hide HandedOk, Follows, Inv;
    if k == 0 {
      InitialHanded(states[0]);
    } else {
      RunInv(states, events, k - 1);
      RunHanded(states, events, k - 1);
      assert Follows(states[k - 1], events[k - 1], states[k]);
      HandedFollows(states[k - 1], events[k - 1], states[k]);
    }
  }

  lemma HandedFollows(sys: System, e: Event, sys': System)
    requires Inv(sys) && HandedOk(sys) && Follows(sys, e, sys')
    ensures HandedOk(sys')
  {
    hide Inv, HandedOk, Next, Enabled;
    HandedKept(sys, e);
  }

  lemma InitialHanded(sys: System)
    requires Initial(sys)
    ensures HandedOk(sys)
  {
  }
}
