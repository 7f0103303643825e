/** What a flush sends each client, frame by frame, and what it makes of the
    bell, the throttle and the ack window over whole runs. */
module Sends {
  import opened Wire
  import opened StyleTables
  import opened Engine
  import opened Sorting
  import opened Publishing
  import opened Surfaces
  import opened Systems
  import opened Invariants
  import opened FrameLemmas
  import opened FlushLemmas
  import opened Convergence
  import opened Discipline
  import opened Starvation

  // ------------------------------------------------------------ the frames of one client

  /** The frames of a flush for one client, in order. */
  function FramesFor(frames: seq<ClientFrame>, c: ClientId): seq<Frame> {
    if frames == [] then []
    else FramesFor(frames[..|frames| - 1], c) + if frames[|frames| - 1].client == c then [frames[|frames| - 1].frame] else []
  }

  lemma {:induction false} FramesForConcat(a: seq<ClientFrame>, b: seq<ClientFrame>, c: ClientId)
    ensures FramesFor(a + b, c) == FramesFor(a, c) + FramesFor(b, c)
  {
    if b == [] {
      assert a + b == a;
    } else {
      assert (a + b)[..|a + b| - 1] == a + b[..|b| - 1];
      FramesForConcat(a, b[..|b| - 1], c);
    }
  }

  /** Something calls for a Snapshot at this flush: it was asked for, the style
      table was reset, or the grace period of a full window is over. */
  predicate OwesSnapshot(sub: Subscription, config: PublisherConfig, now: nat, generation: nat) {
    || sub.needsSnapshot || sub.stylesGeneration != generation
    || (!sub.pending.IsEmpty() && sub.IsWindowBlocked(config.ackWindow)
        && Elapsed(now, StalledAt(sub, now)) >= config.slowClientSnapshotAfter)
  }

  /** The client is sent a picture: a Snapshot, or what is pending through an open window. */
  predicate IsServed(sub: Subscription, config: PublisherConfig, now: nat, generation: nat) {
    OwesSnapshot(sub, config, now, generation) || (!sub.pending.IsEmpty() && !sub.IsWindowBlocked(config.ackWindow))
  }

  lemma OwedKind(c: ClientId, sub: Subscription, config: PublisherConfig, rows: nat, now: nat, seqNo: nat, generation: nat)
    ensures var owed := FlushedOne(c, sub, config, rows, now, seqNo, generation).1;
            && (owed.Some? <==> IsServed(sub, config, now, generation) || sub.pending.bell)
            && (owed.Some? ==>
                  && owed.value.bell == sub.pending.bell
                  && (owed.value.kind.SnapshotKind? <==> OwesSnapshot(sub, config, now, generation))
                  && (owed.value.kind.BellOnly? <==> !IsServed(sub, config, now, generation))
                  && (owed.value.kind.DeltaKind? ==> owed.value.kind.stylesGeneration == generation))
  {
  }

  // ------------------------------------------------------------ styles only move on

  ghost predicate Usable(s: SurfaceState) {
    s.screen.Valid() && ValidTable(s.styles.table) && !s.styles.overflowed
  }

  lemma SnapshotRises(s: SurfaceState, c: ClientId, overflowed: bool)
    requires s.screen.Valid() && ValidTable(s.styles.table)
    ensures var step := SnapshotStep(s, c, overflowed);
            && Usable(step.state) && step.state.styles.generation >= s.styles.generation
            && |step.frames| == 1 && step.frames[0].client == c && step.frames[0].frame.SnapshotMsg?
            && step.frames[0].frame.snapshot.seqNo == s.seqNo
  {
    hide Rendered;
    SnapshotSelfContained(s);
  }

  /** What one emission builds. A Delta gives way to a Snapshot only when the
      style table has left the generation it was chosen for. */
  lemma FrameStepKind(s: SurfaceState, e: Emission)
    requires Usable(s)
    ensures var step := FrameStep(s, e);
            && Usable(step.state) && step.state.styles.generation >= s.styles.generation
            && (e.kind.BellOnly? ==> step.frames == [])
            && (!e.kind.BellOnly? ==>
                  && |step.frames| == 1 && step.frames[0].client == e.client
                  && (step.frames[0].frame.SnapshotMsg? || (e.kind.DeltaKind? && step.frames[0].frame.DeltaMsg?)))
            && (e.kind.DeltaKind? && !step.frames[0].frame.DeltaMsg? ==>
                  s.styles.generation != e.kind.stylesGeneration || step.state.styles.generation > s.styles.generation)
  {
    hide Rendered, PackRows, SnapshotStep;
    match e.kind
    case BellOnly =>
    case SnapshotKind => SnapshotRises(s, e.client, false);
    case DeltaKind(_, _, _, _, _) =>
      PackRowsShow(LinesOf(s.screen, e.kind.dirty.Iter()), s.styles);
      SnapshotRises(BuiltDelta(s, e.since, e.kind).1, e.client, true);
  }

  lemma {:induction false} BuiltRises(s: SurfaceState, emissions: seq<Emission>, k: nat, n: nat)
    requires Usable(s) && k <= n <= |emissions|
    ensures Usable(Built(s, emissions, n).state)
    ensures Built(s, emissions, k).state.styles.generation <= Built(s, emissions, n).state.styles.generation
    decreases n
  {
    hide FrameStep;
    if n == 0 {
    } else {
      BuiltRises(s, emissions, if k < n then k else n - 1, n - 1);
      FrameStepKind(Built(s, emissions, n - 1).state, emissions[n - 1]);
    }
  }

  // ------------------------------------------------------------ one client's share

  lemma BellsFor(e: Emission, c: ClientId)
    ensures FramesFor(BellsOf(e), c) == if e.bell && e.client == c then [BellMsg] else []
  {
  }

  lemma StepFor(s: SurfaceState, e: Emission, c: ClientId)
    requires Usable(s)
    ensures FramesFor(FrameStep(s, e).frames, c)
              == if e.client == c && !e.kind.BellOnly? then [FrameStep(s, e).frames[0].frame] else []
  {
    hide FrameStep;
    FrameStepKind(s, e);
  }

  lemma {:induction false} BuiltForNone(s: SurfaceState, emissions: seq<Emission>, n: nat, c: ClientId)
    requires Usable(s) && n <= |emissions| && !Among(emissions, n, c)
    ensures FramesFor(Built(s, emissions, n).frames, c) == []
  {
    hide FrameStep, FramesFor;
    if n == 0 {
      assert FramesFor([], c) == [] by { BellsFor(Emission(c, Active, BellOnly, 0, false), c); }
    } else {
      AmongNext(emissions, n - 1);
      BuiltForNone(s, emissions, n - 1, c);
      BuiltFor(s, emissions, n - 1, c);
    }
  }

  /** What one more emission adds for a client. */
  lemma BuiltFor(s: SurfaceState, emissions: seq<Emission>, n: nat, c: ClientId)
    requires Usable(s) && n < |emissions|
    ensures Usable(Built(s, emissions, n).state)
    ensures var e, front := emissions[n], Built(s, emissions, n);
            FramesFor(Built(s, emissions, n + 1).frames, c)
              == FramesFor(front.frames, c) + (if e.bell && e.client == c then [BellMsg] else [])
                 + if e.client == c && !e.kind.BellOnly? then [FrameStep(front.state, e).frames[0].frame] else []
  {
    hide FrameStep, FramesFor, BellsOf;
    var e, front := emissions[n], Built(s, emissions, n);
    BuiltRises(s, emissions, 0, n);
    FrameStepKind(front.state, e);
    BellsFor(e, c);
    StepFor(front.state, e, c);
    FramesForConcat(front.frames, BellsOf(e), c);
    FramesForConcat(front.frames + BellsOf(e), FrameStep(front.state, e).frames, c);
  }

  lemma BuiltForOther(s: SurfaceState, emissions: seq<Emission>, n: nat, c: ClientId)
    requires Usable(s) && n < |emissions| && emissions[n].client != c
    ensures FramesFor(Built(s, emissions, n + 1).frames, c) == FramesFor(Built(s, emissions, n).frames, c)
  {
    hide FrameStep, FramesFor, Built;
    BuiltFor(s, emissions, n, c);
    var got := FramesFor(Built(s, emissions, n).frames, c);
    assert got + [] + [] == got;
  }

  lemma BuiltForFirst(s: SurfaceState, emissions: seq<Emission>, n: nat)
    requires Usable(s) && n < |emissions| && !Among(emissions, n, emissions[n].client)
    ensures Usable(Built(s, emissions, n).state)
    ensures var e, before := emissions[n], Built(s, emissions, n).state;
            FramesFor(Built(s, emissions, n + 1).frames, e.client)
              == (if e.bell then [BellMsg] else []) + if e.kind.BellOnly? then [] else [FrameStep(before, e).frames[0].frame]
  {
    hide FrameStep, FramesFor, Built, Among;
    var c := emissions[n].client;
    BuiltForNone(s, emissions, n, c);
    BuiltFor(s, emissions, n, c);
  }

  lemma SortedClients(emissions: seq<Emission>, k: nat, n: nat)
    requires SortedBy(emissions, ByClient) && k <= n < |emissions|
    ensures !Among(emissions, k, emissions[k].client) && (k < n ==> emissions[n].client != emissions[k].client)
  {
  }

  /** A client among the emissions is sent what its one emission builds. */
  lemma {:induction false} BuiltForOne(s: SurfaceState, emissions: seq<Emission>, k: nat, n: nat)
    requires Usable(s) && k < n <= |emissions| && SortedBy(emissions, ByClient)
    ensures Usable(Built(s, emissions, k).state)
    ensures var e, before := emissions[k], Built(s, emissions, k).state;
            FramesFor(Built(s, emissions, n).frames, e.client)
              == (if e.bell then [BellMsg] else []) + if e.kind.BellOnly? then [] else [FrameStep(before, e).frames[0].frame]
    decreases n
  {
    hide FrameStep, FramesFor, Built, Among, SortedBy, Usable;
    SortedClients(emissions, k, n - 1);
    if n == k + 1 {
      BuiltForFirst(s, emissions, k);
    } else {
      BuiltForOne(s, emissions, k, n - 1);
      BuiltForOther(s, emissions, n - 1, emissions[k].client);
    }
  }

  /** What a flush that goes through sends a client: one bell if one is pending
      and none otherwise, then one picture if the client is served and none
      otherwise. The picture is a Snapshot when one is owed, and a Delta when
      none is, unless the style table was reset during this very flush. */
  lemma FlushSends(sys: System, now: nat, c: ClientId)
    requires Inv(sys) && ShouldFlush(sys.server.publisher, now) && c in sys.server.publisher.subs
    ensures var s, sub := sys.server, sys.server.publisher.subs[c];
            var (s', frames) := Flushed(s, now);
            var got, bells := FramesFor(frames, c), if sub.pending.bell then 1 else 0;
            var served := IsServed(sub, s.publisher.config, now, s.styles.generation);
            && |got| == bells + (if served then 1 else 0)
            && (sub.pending.bell ==> got[0] == BellMsg)
            && (served ==>
                  && NumberOf(got[bells]) == Some(s.seqNo + 1)
                  && (got[bells].SnapshotMsg? || got[bells].DeltaMsg?)
                  && (OwesSnapshot(sub, s.publisher.config, now, s.styles.generation) ==> got[bells].SnapshotMsg?)
                  && (got[bells].SnapshotMsg? ==>
                        || OwesSnapshot(sub, s.publisher.config, now, s.styles.generation)
                        || s'.styles.generation > s.styles.generation))
  {
    hide FlushedOne, Emissions, FrameStep, FramesFor, OwesSnapshot, IsServed, Tracks, LinkOk, Drained, Built, Among;
    var s, sub := sys.server, sys.server.publisher.subs[c];
    var start, emissions := LoopStart(s, now), EmissionsAt(s, now);
    OwedKind(c, sub, s.publisher.config, s.publisher.rows, now, s.seqNo + 1, s.styles.generation);
    if FlushedSub(s.publisher, c, now, s.seqNo + 1, s.styles.generation).1.Some? {
      var k := EmissionIndex(s, now, c);
      EmissionsSorted(s.publisher, now, s.seqNo + 1, s.styles.generation);
      BuiltForOne(start, emissions, k, |emissions|);
      PictureKind(start, emissions, k);
    } else {
      NotEmitted(s, now, c);
      if emissions == [] {
        NoFramesFor(c);
      } else {
        BuiltForNone(start, emissions, |emissions|, c);
      }
    }
  }

  lemma NoFramesFor(c: ClientId)
    ensures FramesFor([], c) == []
  {
  }

  lemma EmissionIndex(s: SurfaceState, now: nat, c: ClientId) returns (k: nat)
    requires c in s.publisher.subs && FlushedSub(s.publisher, c, now, s.seqNo + 1, s.styles.generation).1.Some?
    ensures k < |EmissionsAt(s, now)|
    ensures EmissionsAt(s, now)[k].client == c
    ensures FlushedSub(s.publisher, c, now, s.seqNo + 1, s.styles.generation).1 == Some(EmissionsAt(s, now)[k])
  {
    hide FlushedOne, Emissions;
    var emissions := EmissionsAt(s, now);
    OwedEmission(s.publisher, now, s.seqNo + 1, s.styles.generation, c);
    k :| 0 <= k < |emissions| && emissions[k].client == c;
    EmissionOwed(s.publisher, now, s.seqNo + 1, s.styles.generation, k);
  }

  lemma NotEmitted(s: SurfaceState, now: nat, c: ClientId)
    requires c in s.publisher.subs && FlushedSub(s.publisher, c, now, s.seqNo + 1, s.styles.generation).1.None?
    ensures var emissions := EmissionsAt(s, now); !Among(emissions, |emissions|, c)
  {
    hide FlushedOne, Emissions;
    var emissions := EmissionsAt(s, now);
    if Among(emissions, |emissions|, c) {
      var k :| 0 <= k < |emissions| && emissions[k].client == c;
      EmissionOwed(s.publisher, now, s.seqNo + 1, s.styles.generation, k);
    }
  }

  /** The picture of one emission, and why a Delta may have become a Snapshot. */
  lemma PictureKind(s: SurfaceState, emissions: seq<Emission>, k: nat)
    requires Usable(s) && k < |emissions|
    ensures Usable(Built(s, emissions, k).state)
    ensures var e, before, last := emissions[k], Built(s, emissions, k).state, Built(s, emissions, |emissions|).state;
            var frames := FrameStep(before, e).frames;
            !e.kind.BellOnly? ==>
              && |frames| == 1 && NumberOf(frames[0].frame) == Some(s.seqNo)
              && (frames[0].frame.SnapshotMsg? || frames[0].frame.DeltaMsg?)
              && (e.kind.SnapshotKind? ==> frames[0].frame.SnapshotMsg?)
              && (e.kind.DeltaKind? && e.kind.stylesGeneration == s.styles.generation && frames[0].frame.SnapshotMsg? ==>
                    last.styles.generation > s.styles.generation)
  {
    hide FrameStep;
    var e := emissions[k];
    BuiltRises(s, emissions, 0, k);
    BuiltRises(s, emissions, k + 1, |emissions|);
    FrameStepKind(Built(s, emissions, k).state, e);
    BuiltSeq(s, emissions, k);
    FrameStepFrames(Built(s, emissions, k).state, e);
    assert !e.kind.BellOnly? ==> FrameStep(Built(s, emissions, k).state, e).frames[0] in FrameStep(Built(s, emissions, k).state, e).frames;
    assert Built(s, emissions, 0).state == s;
  }

  // ------------------------------------------------------------ bells over runs

  /** A bell was rung for `c` and no flush has gone through since: at state `k`
      of a run. Attaching anew or again forgets it. */
  ghost predicate Rung(states: seq<System>, events: seq<Event>, c: ClientId, k: nat)
    requires k <= |events| < |states|
  {
    k > 0 && c in states[k - 1].server.publisher.subs
    && match events[k - 1]
       case Feed(_, _, _, bell) => bell || Rung(states, events, c, k - 1)
       case Attach(d, _, _) => d != c && Rung(states, events, c, k - 1)
       case Detach(d) => d != c && Rung(states, events, c, k - 1)
       case Flush(now) => !ShouldFlush(states[k - 1].server.publisher, now) && Rung(states, events, c, k - 1)
       case _ => Rung(states, events, c, k - 1)
  }

  /** What a step makes of the bell pending for a client that stays subscribed. */
  ghost predicate BellMoves(sys: System, e: Event, c: ClientId, before: bool, after: bool) {
    match e
    case Feed(_, _, _, bell) => after == (bell || before)
    case Attach(d, _, _) => after == (d != c && before)
    case Flush(now) => after == (!ShouldFlush(sys.server.publisher, now) && before)
    case _ => after == before
  }

  lemma FlushBell(s: SurfaceState, now: nat, c: ClientId)
    requires s.screen.Valid() && c in s.publisher.subs
    ensures var s' := Flushed(s, now).0;
            && c in s'.publisher.subs
            && s'.publisher.subs[c].pending.bell == (!ShouldFlush(s.publisher, now) && s.publisher.subs[c].pending.bell)
  {
    hide FlushedOne, Emissions, Built, ShouldFlush;
    OneBell(c, s.publisher.subs[c], s.publisher.config, s.publisher.rows, now, s.seqNo + 1, s.styles.generation);
    BuiltSubs(LoopStart(s, now), EmissionsAt(s, now), |EmissionsAt(s, now)|);
  }

  lemma OneBell(c: ClientId, sub: Subscription, config: PublisherConfig, rows: nat, now: nat, seqNo: nat, generation: nat)
    ensures !FlushedOne(c, sub, config, rows, now, seqNo, generation).0.pending.bell
  {
  }

  lemma FeedBell(s: SurfaceState, screen: Screen, damage: Damage, titled: bool, bell: bool, c: ClientId)
    requires c in s.publisher.subs
    ensures var s' := AfterFeed(s, screen, damage, titled, bell);
            c in s'.publisher.subs && s'.publisher.subs[c].pending.bell == (bell || s.publisher.subs[c].pending.bell)
  {
    hide AfterFeed;
    FedSub(s, screen, damage, titled, bell, c);
  }

  lemma ResizeBell(s: SurfaceState, size: Size, screen: Screen, c: ClientId)
    requires c in s.publisher.subs
    ensures var s' := AfterResize(s, size, screen);
            c in s'.publisher.subs && s'.publisher.subs[c].pending.bell == s.publisher.subs[c].pending.bell
  {
  }

  lemma ResetBell(s: SurfaceState, screen: Screen, c: ClientId)
    requires c in s.publisher.subs
    ensures var s' := AfterReset(s, screen);
            c in s'.publisher.subs && s'.publisher.subs[c].pending.bell == s.publisher.subs[c].pending.bell
  {
  }

  lemma HistoryBell(s: SurfaceState, lines: seq<Line>, c: ClientId)
    requires c in s.publisher.subs
    ensures var s' := AfterHistory(s, lines);
            c in s'.publisher.subs && s'.publisher.subs[c].pending.bell == s.publisher.subs[c].pending.bell
  {
    hide PackRows;
  }

  lemma ExitBell(s: SurfaceState, status: ExitStatus, c: ClientId)
    requires c in s.publisher.subs
    ensures var s' := AfterExit(s, status);
            c in s'.publisher.subs && s'.publisher.subs[c].pending.bell == s.publisher.subs[c].pending.bell
  {
  }

  lemma AttachBell(s: SurfaceState, d: ClientId, mode: AttachMode, now: nat, c: ClientId)
    requires c in s.publisher.subs
    ensures var s' := OnAttach(s, d, mode, now);
            c in s'.publisher.subs && s'.publisher.subs[c].pending.bell == (d != c && s.publisher.subs[c].pending.bell)
  {
  }

  lemma ModeBell(sub: Subscription, mode: AttachMode)
    ensures WithMode(sub, mode).pending.bell == sub.pending.bell
  {
  }

  lemma StepBell(sys: System, e: Event, sys': System, c: ClientId)
    requires Inv(sys) && Follows(sys, e, sys') && c in sys.server.publisher.subs && e != Detach(c)
    ensures c in sys'.server.publisher.subs
    ensures BellMoves(sys, e, c, sys.server.publisher.subs[c].pending.bell, sys'.server.publisher.subs[c].pending.bell)
  {
    hide AfterFeed, AfterResize, AfterReset, AfterHistory, AfterExit, OnAttach, WithMode, Flushed, Acked, LinkOk, Tracks, ServerOk;
    hide Pushed, Broadcast, PoppedDown, Posted, HandedAfter, ShouldFlush, Advances, HistoryLines;
    var s := sys.server;
    match e {
      case Feed(screen, damage, titled, bell) => FeedBell(s, screen, damage, titled, bell, c);
      case Resize(size, screen) => ResizeBell(s, size, screen, c);
      case Reset(screen) => ResetBell(s, screen, c);
      case FetchHistory(from, count) => HistoryBell(s, HistoryLines(s.screen, from, count), c);
      case Exit(status) => ExitBell(s, status, c);
      case Flush(now) => FlushBell(s, now, c);
      case Attach(d, mode, now) => AttachBell(s, d, mode, now, c);
      case SwitchMode(d, mode) => ModeBell(s.publisher.subs[c], mode);
      case DeliverUp(d, now) =>
        UpOk(sys.links[d]);
        AckBell(s, c, sys.links[d].up[0].seqNo, now);
      case _ =>
    }
  }

  lemma AckBell(s: SurfaceState, c: ClientId, seqNo: nat, now: nat)
    requires c in s.publisher.subs
    ensures Acked(s.publisher.subs[c], seqNo, now, s.publisher.config.ackWindow).pending == s.publisher.subs[c].pending
  {
  }

  lemma NewBell(sys: System, e: Event, sys': System, c: ClientId)
    requires Inv(sys) && Follows(sys, e, sys') && c !in sys.server.publisher.subs && c in sys'.server.publisher.subs
    ensures !sys'.server.publisher.subs[c].pending.bell && e.Attach? && e.client == c
  {
    hide AfterFlush, AfterFeed, AfterResize, AfterReset, AfterHistory, LinkOk, Tracks;
    match e {
      case Flush(now) => FlushKeys(sys, now);
      case Feed(screen, damage, titled, bell) => FeedServer(sys.server, screen, damage, titled, bell);
      case Resize(size, screen) => ResizeKeeps(sys.server, size, screen);
      case Reset(screen) => ResetKeeps(sys.server, screen);
      case FetchHistory(from, count) => HistoryKeeps(sys.server, HistoryLines(sys.server.screen, from, count));
      case DeliverUp(d, now) => UpOk(sys.links[d]);
      case _ =>
    }
  }

  /** The bell is pending for a client exactly when one was rung for it since. */
  lemma {:induction false} BellPendingIff(states: seq<System>, events: seq<Event>, c: ClientId, k: nat)
    requires IsRun(states, events) && k <= |events| && c in states[k].server.publisher.subs
    ensures states[k].server.publisher.subs[c].pending.bell <==> Rung(states, events, c, k)
  {
    hide Follows, Inv, ShouldFlush;
    if k == 0 {
      assert false;
    } else {
      RunInv(states, events, k - 1);
      assert Follows(states[k - 1], events[k - 1], states[k]);
      if c !in states[k - 1].server.publisher.subs {
        NewBell(states[k - 1], events[k - 1], states[k], c);
      } else {
        BellPendingIff(states, events, c, k - 1);
        if events[k - 1] == Detach(c) {
          DetachedGone(states[k - 1], states[k], c);
        } else {
          StepBell(states[k - 1], events[k - 1], states[k], c);
        }
      }
    }
  }

  lemma DetachedGone(sys: System, sys': System, c: ClientId)
    requires Follows(sys, Detach(c), sys')
    ensures c !in sys'.server.publisher.subs
  {
  }

  /** The bells on a channel. */
  function Bells(down: seq<Sent>): nat {
    if down == [] then 0 else Bells(down[..|down| - 1]) + if down[|down| - 1].frame.BellMsg? then 1 else 0
  }

  function BellCount(frames: seq<Frame>): nat {
    if frames == [] then 0 else BellCount(frames[..|frames| - 1]) + if frames[|frames| - 1].BellMsg? then 1 else 0
  }

  lemma BellsPlus(down: seq<Sent>, sent: Sent)
    ensures Bells(down + [sent]) == Bells(down) + if sent.frame.BellMsg? then 1 else 0
  {
    assert (down + [sent])[..|down|] == down;
  }

  lemma CountPlus(frames: seq<Frame>, frame: Frame)
    ensures BellCount(frames + [frame]) == BellCount(frames) + if frame.BellMsg? then 1 else 0
  {
    assert (frames + [frame])[..|frames|] == frames;
  }

  lemma {:induction false} PostedBells(links: map<ClientId, Link>, subs: map<ClientId, Subscription>, frames: seq<ClientFrame>, c: ClientId)
    requires c in links
    ensures var posted := Posted(links, subs, frames);
            c in posted && Bells(posted[c].down) == Bells(links[c].down) + BellCount(FramesFor(frames, c))
  {
    hide Bells, BellCount;
    if frames == [] {
      NoBells();
    } else {
      var front, last := frames[..|frames| - 1], frames[|frames| - 1];
      PostedBells(links, subs, front, c);
      var mode := ModeIn(subs, last.client);
      BellsPlus(Posted(links, subs, front)[c].down, Sent(Stripped(last.frame, mode), mode));
      CountPlus(FramesFor(front, c), last.frame);
      if last.client != c {
        assert FramesFor(front, c) + [] == FramesFor(front, c);
      }
    }
  }

  lemma NoBells()
    ensures BellCount([]) == 0
  {
  }

  lemma SomeBells(frames: seq<Frame>, rung: bool)
    requires |frames| <= 2 && (rung ==> frames != [] && frames[0] == BellMsg)
    requires forall k :: (if rung then 1 else 0) <= k < |frames| ==> !frames[k].BellMsg?
    ensures BellCount(frames) == if rung then 1 else 0
  {
    if frames != [] {
      assert BellCount(frames[..0]) == 0;
      if |frames| == 2 {
        assert frames[..1][..0] == [] && frames[..1][0] == frames[0];
      }
    }
  }

  /** Every bell reaches every client, once: a flush that goes through puts
      exactly one bell on a client's channel if one was rung for it since the
      last, and none otherwise. */
  lemma BellsReach(states: seq<System>, events: seq<Event>, c: ClientId, k: nat)
    requires IsRun(states, events) && k < |events| && events[k].Flush?
    requires c in states[k].server.publisher.subs && ShouldFlush(states[k].server.publisher, events[k].now)
    ensures c in states[k].links && c in states[k + 1].links
    ensures Bells(states[k + 1].links[c].down) == Bells(states[k].links[c].down) + if Rung(states, events, c, k) then 1 else 0
  {
    hide Follows, Rung, ShouldFlush, FramesFor, Bells, BellCount;
    RunInv(states, events, k);
    BellPendingIff(states, events, c, k);
    assert Follows(states[k], events[k], states[k + 1]);
    FlushBells(states[k], events[k].now, states[k + 1], c);
  }

  lemma FlushBells(sys: System, now: nat, sys': System, c: ClientId)
    requires Inv(sys) && Follows(sys, Flush(now), sys') && c in sys.server.publisher.subs && ShouldFlush(sys.server.publisher, now)
    ensures c in sys.links && c in sys'.links
    ensures Bells(sys'.links[c].down) == Bells(sys.links[c].down) + if sys.server.publisher.subs[c].pending.bell then 1 else 0
  {
    hide ShouldFlush, Flushed, FramesFor, Bells, BellCount, LinkOk, Tracks, ServerOk, IsServed, OwesSnapshot, HandedAfter, Posted;
    FlushSends(sys, now, c);
    SomeBells(FramesFor(Flushed(sys.server, now).1, c), sys.server.publisher.subs[c].pending.bell);
    PostedBells(sys.links, sys'.server.publisher.subs, Flushed(sys.server, now).1, c);
  }

  // ------------------------------------------------------------ the throttle

  /** A flush puts something on some channel. */
  ghost predicate Speaks(sys: System, now: nat)
    requires sys.server.screen.Valid()
  {
    Flushed(sys.server, now).1 != []
  }

  lemma SpeaksOnlyWhenDue(sys: System, now: nat)
    requires Inv(sys) && Speaks(sys, now)
    ensures var p := sys.server.publisher;
            || p.lastFlush.None? || now >= p.lastFlush.value + p.config.minInterval || p.config.minInterval == 0
            || exists c :: c in p.subs && p.subs[c].needsSnapshot
    ensures Flushed(sys.server, now).0.publisher.lastFlush == Some(now)
  {
    hide Emissions, FlushedSubs, LinkOk, Tracks, FrameStep;
    BuiltLast(LoopStart(sys.server, now), EmissionsAt(sys.server, now), |EmissionsAt(sys.server, now)|);
  }

  lemma {:induction false} BuiltLast(s: SurfaceState, emissions: seq<Emission>, n: nat)
    requires 1 <= s.screen.rows == |s.screen.lines| && n <= |emissions|
    ensures Built(s, emissions, n).state.publisher.lastFlush == s.publisher.lastFlush
  {
    hide FrameStep;
    if n == 0 {
    } else {
      BuiltLast(s, emissions, n - 1);
      FrameStepLast(Built(s, emissions, n - 1).state, emissions[n - 1]);
    }
  }

  lemma FrameStepLast(s: SurfaceState, e: Emission)
    requires 1 <= s.screen.rows == |s.screen.lines|
    ensures FrameStep(s, e).state.publisher.lastFlush == s.publisher.lastFlush
  {
    hide Rendered, PackRows;
  }

  lemma LastMoves(sys: System, e: Event, sys': System)
    requires Inv(sys) && Follows(sys, e, sys')
    ensures var last, last' := sys.server.publisher.lastFlush, sys'.server.publisher.lastFlush;
            last' == last || (e.Flush? && last' == Some(e.now))
  {
    hide Built, FlushedSubs, Emissions, Posted, HandedAfter, PackRows, Pushed, Broadcast, PoppedDown, Marked, Acked, LinkOk, Tracks, ServerOk;
    InvServer(sys);
    if e.Flush? {
      BuiltLast(LoopStart(sys.server, e.now), EmissionsAt(sys.server, e.now), |EmissionsAt(sys.server, e.now)|);
    }
  }

  lemma {:induction false} LastSince(states: seq<System>, events: seq<Event>, f: nat, k: nat)
    requires IsRun(states, events) && ClockForward(events) && f < k <= |events| && events[f].Flush?
    requires states[f].server.screen.Valid() && Speaks(states[f], events[f].now)
    ensures states[k].server.publisher.config == states[f].server.publisher.config
    ensures states[k].server.publisher.lastFlush.Some? && states[k].server.publisher.lastFlush.value >= events[f].now
  {
    hide Follows, Inv, Speaks;
    RunInv(states, events, k - 1);
    assert Follows(states[k - 1], events[k - 1], states[k]);
    ConfigFollows(states[k - 1], events[k - 1], states[k]);
    if k == f + 1 {
      SpokeAt(states[f], events[f].now, states[k]);
    } else {
      LastSince(states, events, f, k - 1);
      LastMoves(states[k - 1], events[k - 1], states[k]);
    }
  }

  lemma ConfigFollows(sys: System, e: Event, sys': System)
    requires Inv(sys) && Follows(sys, e, sys')
    ensures sys'.server.publisher.config == sys.server.publisher.config
  {
    hide Inv, Next, Enabled;
    ConfigKept(sys, e);
  }

  lemma SpokeAt(sys: System, now: nat, sys': System)
    requires Inv(sys) && Follows(sys, Flush(now), sys') && Speaks(sys, now)
    ensures sys'.server.publisher.lastFlush == Some(now)
  {
    hide Flushed, Speaks, LinkOk, Tracks, HandedAfter, Posted;
    SpeaksOnlyWhenDue(sys, now);
  }

  /** The throttle: with a clock that never goes back, two flushes that put
      anything on any channel are at least the minimum interval apart, unless
      some client is owed a Snapshot at the later one. */
  lemma Throttle(states: seq<System>, events: seq<Event>, f: nat, g: nat)
    requires IsRun(states, events) && ClockForward(events) && f < g < |events| && events[f].Flush? && events[g].Flush?
    requires states[f].server.screen.Valid() && Speaks(states[f], events[f].now)
    requires states[g].server.screen.Valid() && Speaks(states[g], events[g].now)
    ensures var p := states[g].server.publisher;
            || events[g].now >= events[f].now + p.config.minInterval
            || exists c :: c in p.subs && p.subs[c].needsSnapshot
  {
    hide Follows, Inv, Speaks;
    RunInv(states, events, g);
    LastSince(states, events, f, g);
    SpeaksOnlyWhenDue(states[g], events[g].now);
  }

  // ------------------------------------------------------------ acks over runs

  /** The numbers acknowledged by `c` since its subscription was made. */
  ghost function AcksHeard(states: seq<System>, events: seq<Event>, c: ClientId, k: nat): set<nat>
    requires k <= |events| < |states|
  {
    if k == 0 || c !in states[k - 1].server.publisher.subs then {}
    else AcksHeard(states, events, c, k - 1) + AckIn(states[k - 1], events[k - 1], c)
  }

  ghost function AckIn(sys: System, e: Event, c: ClientId): set<nat> {
    if e.DeliverUp? && e.client == c && c in sys.links && sys.links[c].up != [] && sys.links[c].up[0].AckMsg?
    then {sys.links[c].up[0].seqNo} else {}
  }

  /** The numbers of the Snapshots handed to `c` since its subscription was made. */
  ghost function SnapshotsHanded(states: seq<System>, events: seq<Event>, c: ClientId, k: nat): set<nat>
    requires k <= |events| < |states|
  {
    if k == 0 || c !in states[k - 1].server.publisher.subs then {}
    else SnapshotsHanded(states, events, c, k - 1) + SnapshotsIn(states[k - 1], events[k - 1], c)
  }

  ghost function SnapshotsIn(sys: System, e: Event, c: ClientId): set<nat> {
    if e.Flush? && sys.server.screen.Valid() then SnapshotSeqs(FramesFor(Flushed(sys.server, e.now).1, c)) else {}
  }

  function SnapshotSeqs(frames: seq<Frame>): set<nat> {
    set k | 0 <= k < |frames| && frames[k].SnapshotMsg? :: frames[k].snapshot.seqNo
  }

  /** What the acknowledged cursor may stand on: an ack that was heard, or the
      number before a Snapshot that was handed over. */
  ghost predicate Grounded(acked: nat, acks: set<nat>, snapshots: set<nat>) {
    || acked == 0 || acked + 1 in snapshots
    || exists a :: a in acks && acked <= a
  }

  lemma GroundedMore(acked: nat, acks: set<nat>, snapshots: set<nat>, acks': set<nat>, snapshots': set<nat>)
    requires Grounded(acked, acks, snapshots) && acks <= acks' && snapshots <= snapshots'
    ensures Grounded(acked, acks', snapshots')
  {
  }

  lemma AckGrounded(sub: Subscription, seqNo: nat, now: nat, ackWindow: nat)
    ensures var sub' := Acked(sub, seqNo, now, ackWindow);
            sub'.lastAcked == sub.lastAcked || sub'.lastAcked <= seqNo
  {
  }

  /** A flush moves the acknowledged cursor only with a Snapshot. */
  lemma FlushGrounded(sys: System, now: nat, c: ClientId, sub': Subscription)
    requires Inv(sys) && c in sys.server.publisher.subs && ShouldFlush(sys.server.publisher, now)
    requires FlushedTo(sys.server, c, sys.server.publisher.subs[c], now, sub')
    ensures sys.server.screen.Valid()
    ensures sub'.lastAcked == sys.server.publisher.subs[c].lastAcked || sub'.lastAcked + 1 in SnapshotsIn(sys, Flush(now), c)
  {
    hide FlushedOne, Flushed, FramesFor, ShouldFlush, Tracks, LinkOk, OwesSnapshot, IsServed;
    var s, sub := sys.server, sys.server.publisher.subs[c];
    var got := FramesFor(Flushed(s, now).1, c);
    FlushSends(sys, now, c);
    OneAcked(c, sub, s.publisher.config, s.publisher.rows, now, s.seqNo + 1, s.styles.generation);
    if sub'.lastAcked != sub.lastAcked {
      var k := if sub.pending.bell then 1 else 0;
      assert got[k].snapshot.seqNo in SnapshotSeqs(got);
    }
  }

  lemma OneAcked(c: ClientId, sub: Subscription, config: PublisherConfig, rows: nat, now: nat, seqNo: nat, generation: nat)
    requires seqNo >= 1
    ensures var acked := FlushedOne(c, sub, config, rows, now, seqNo, generation).0.lastAcked;
            acked == sub.lastAcked || (acked == seqNo - 1 && OwesSnapshot(sub, config, now, generation))
    ensures OwesSnapshot(sub, config, now, generation) ==> IsServed(sub, config, now, generation)
  {
  }

  lemma StepGrounded(sys: System, e: Event, sys': System, c: ClientId, acks: set<nat>, snapshots: set<nat>)
    requires Inv(sys) && Follows(sys, e, sys') && c in sys.server.publisher.subs && e != Detach(c)
    requires Grounded(sys.server.publisher.subs[c].lastAcked, acks, snapshots)
    ensures c in sys'.server.publisher.subs
    ensures Grounded(sys'.server.publisher.subs[c].lastAcked, acks + AckIn(sys, e, c), snapshots + SnapshotsIn(sys, e, c))
  {
    hide Next, FlushedTo, Grounded, SnapshotsIn, Acked, ShouldFlush, Inv, LinkOk, Tracks;
    StepMoves(sys, e, c);
    var sub, sub' := sys.server.publisher.subs[c], sys'.server.publisher.subs[c];
    GroundedMore(sub.lastAcked, acks, snapshots, acks + AckIn(sys, e, c), snapshots + SnapshotsIn(sys, e, c));
    if e.Flush? && ShouldFlush(sys.server.publisher, e.now) {
      FlushGrounded(sys, e.now, c, sub');
      GroundedSnapshot(sub'.lastAcked, acks + AckIn(sys, e, c), snapshots + SnapshotsIn(sys, e, c));
    } else if e.DeliverUp? && e.client == c && sys.links[c].up[0].AckMsg? {
      AckGrounded(sub, sys.links[c].up[0].seqNo, e.now, sys.server.publisher.config.ackWindow);
      GroundedAck(sub'.lastAcked, acks + AckIn(sys, e, c), snapshots + SnapshotsIn(sys, e, c), sys.links[c].up[0].seqNo);
    }
  }

  lemma GroundedSnapshot(acked: nat, acks: set<nat>, snapshots: set<nat>)
    ensures acked + 1 in snapshots ==> Grounded(acked, acks, snapshots)
  {
  }

  lemma GroundedAck(acked: nat, acks: set<nat>, snapshots: set<nat>, a: nat)
    ensures a in acks && acked <= a ==> Grounded(acked, acks, snapshots)
  {
  }

  lemma {:induction false} RunGrounded(states: seq<System>, events: seq<Event>, c: ClientId, k: nat)
    requires IsRun(states, events) && k <= |events| && c in states[k].server.publisher.subs
    ensures Grounded(states[k].server.publisher.subs[c].lastAcked, AcksHeard(states, events, c, k), SnapshotsHanded(states, events, c, k))
  {
    hide Follows, Inv, Grounded, AckIn, SnapshotsIn;
    if k == 0 {
      assert false;
    } else {
      RunInv(states, events, k - 1);
      assert Follows(states[k - 1], events[k - 1], states[k]);
      if c !in states[k - 1].server.publisher.subs {
        NewGrounded(states[k - 1], events[k - 1], states[k], c);
      } else {
        RunGrounded(states, events, c, k - 1);
        if events[k - 1] == Detach(c) {
          DetachedGone(states[k - 1], states[k], c);
        } else {
          StepGrounded(states[k - 1], events[k - 1], states[k], c,
                       AcksHeard(states, events, c, k - 1), SnapshotsHanded(states, events, c, k - 1));
        }
      }
    }
  }

  lemma NewGrounded(sys: System, e: Event, sys': System, c: ClientId)
    requires Inv(sys) && Follows(sys, e, sys') && c !in sys.server.publisher.subs && c in sys'.server.publisher.subs
    ensures Grounded(sys'.server.publisher.subs[c].lastAcked, {}, {})
  {
    hide AfterFlush, AfterFeed, AfterResize, AfterReset, AfterHistory, AfterExit, LinkOk, Tracks, ServerOk, Pushed, PoppedDown, Broadcast;
    NewBell(sys, e, sys', c);
  }

  /** At or below an ack that was heard, or below a Snapshot that was handed over. */
  ghost predicate Answered(number: nat, acks: set<nat>, snapshots: set<nat>) {
    (exists a :: a in acks && number <= a) || exists n :: n in snapshots && number < n
  }

  /** The Deltas nobody answered for. */
  ghost function Unanswered(handed: set<nat>, acks: set<nat>, snapshots: set<nat>): set<nat> {
    set d | d in handed && !Answered(d, acks, snapshots)
  }

  /** The ack window, counted against the answers themselves: in every state of
      every run at most `ackWindow` of the Deltas handed to a subscription lie
      above every ack that arrived from it and are not followed by a Snapshot it
      was handed; and the acknowledged cursor stands on one of the two. */
  lemma AckWindowHolds(states: seq<System>, events: seq<Event>, c: ClientId, k: nat)
    requires IsRun(states, events) && k <= |events| && c in states[k].server.publisher.subs
    ensures c in states[k].handed
    ensures var acks, snapshots := AcksHeard(states, events, c, k), SnapshotsHanded(states, events, c, k);
            && |Unanswered(states[k].handed[c], acks, snapshots)| <= states[k].server.publisher.config.ackWindow
            && Grounded(states[k].server.publisher.subs[c].lastAcked, acks, snapshots)
  {
    hide Follows, AcksHeard, SnapshotsHanded;
    RunHanded(states, events, k);
    RunGrounded(states, events, c, k);
    var acks, snapshots := AcksHeard(states, events, c, k), SnapshotsHanded(states, events, c, k);
    UnansweredFlies(states[k].handed[c], states[k].server.publisher.subs[c].lastAcked, acks, snapshots);
  }

  lemma UnansweredFlies(handed: set<nat>, acked: nat, acks: set<nat>, snapshots: set<nat>)
    requires Grounded(acked, acks, snapshots) && forall d :: d in handed ==> d >= 1
    ensures |Unanswered(handed, acks, snapshots)| <= |InFlight(handed, acked)|
  {
    assert forall d :: d in Unanswered(handed, acks, snapshots) ==> d in InFlight(handed, acked);
    SubsetSize(Unanswered(handed, acks, snapshots), InFlight(handed, acked));
  }

  // ------------------------------------------------------------ what is pending, and why

  /** What a feed makes pending for a client, exactly: the damaged rows, and each
      scalar that is not what the last frame said. */
  lemma FeedPendingIs(s: SurfaceState, screen: Screen, damage: Damage, titled: bool, bell: bool, c: ClientId)
    requires ServerOk(s) && Advances(s.screen, screen, damage) && c in s.publisher.subs
    ensures var s' := AfterFeed(s, screen, damage, titled, bell);
            && c in s'.publisher.subs
            && var p, p' := s.publisher.subs[c].pending, s'.publisher.subs[c].pending;
               && p'.dirty.bits == (if damage.Full? then Below(screen.rows) else p.dirty.bits + damage.dirty.bits)
               && (p'.cursor <==> p.cursor || screen.cursor != s.lastCursor)
               && (p'.modes <==> p.modes || screen.modes != s.lastModes)
               && (p'.title <==> p.title || titled || screen.title != s.lastTitle)
               && (p'.history <==> p.history || screen.historyBase != s.lastBase || screen.historyLen != s.lastLen)
               && p'.resized == p.resized
               && s'.publisher.subs[c] == s.publisher.subs[c].(pending := p')
  {
    hide AfterFeed;
    AdvancesShape(s.screen, screen, damage);
    assert SubOk(s, s.publisher.subs[c]);
    FedSub(s, screen, damage, titled, bell, c);
    FedDirty(s, screen, damage, titled, bell, s.publisher.subs[c].pending);
  }

  lemma {:induction false} BuiltOverflow(s: SurfaceState, emissions: seq<Emission>, n: nat)
    requires Usable(s) && n <= |emissions|
    requires forall k :: 0 <= k < |emissions| && emissions[k].kind.DeltaKind? ==> emissions[k].kind.stylesGeneration == s.styles.generation
    ensures Usable(Built(s, emissions, n).state)
    ensures Built(s, emissions, n).overflowed ==> Built(s, emissions, n).state.styles.generation > s.styles.generation
  {
    hide FrameStep;
    if n == 0 {
    } else {
      BuiltOverflow(s, emissions, n - 1);
      BuiltRises(s, emissions, 0, n - 1);
      FrameStepKind(Built(s, emissions, n - 1).state, emissions[n - 1]);
      FrameStepOverflow(Built(s, emissions, n - 1).state, emissions[n - 1]);
      assert Built(s, emissions, 0).state == s;
    }
  }

  lemma FrameStepOverflow(s: SurfaceState, e: Emission)
    requires Usable(s)
    ensures FrameStep(s, e).overflowed ==> e.kind.DeltaKind? && FrameStep(s, e).frames != [] && FrameStep(s, e).frames[0].frame.SnapshotMsg?
  {
    hide Rendered, PackRows;
  }

  /** A flush leaves a client owed a Snapshot only if the style table was reset in it. */
  lemma FlushOwes(sys: System, now: nat, c: ClientId)
    requires Inv(sys) && c in sys.server.publisher.subs && !sys.server.publisher.subs[c].needsSnapshot
    ensures var s' := Flushed(sys.server, now).0;
            && c in s'.publisher.subs
            && (s'.publisher.subs[c].needsSnapshot ==> s'.styles.generation > sys.server.styles.generation)
  {
    hide FlushedOne, Emissions, Built, ShouldFlush, LinkOk, Tracks;
    var s := sys.server;
    var start, emissions := LoopStart(s, now), EmissionsAt(s, now);
    OneOwes(c, s.publisher.subs[c], s.publisher.config, s.publisher.rows, now, s.seqNo + 1, s.styles.generation);
    BuiltSubs(start, emissions, |emissions|);
    forall k | 0 <= k < |emissions| && emissions[k].kind.DeltaKind?
      ensures emissions[k].kind.stylesGeneration == s.styles.generation
    {
      EmissionOwed(s.publisher, now, s.seqNo + 1, s.styles.generation, k);
      var d := emissions[k].client;
      OwedKind(d, s.publisher.subs[d], s.publisher.config, s.publisher.rows, now, s.seqNo + 1, s.styles.generation);
    }
    BuiltOverflow(start, emissions, |emissions|);
  }

  lemma OneOwes(c: ClientId, sub: Subscription, config: PublisherConfig, rows: nat, now: nat, seqNo: nat, generation: nat)
    ensures !FlushedOne(c, sub, config, rows, now, seqNo, generation).0.needsSnapshot
  {
  }

  /** What calls for a Snapshot, a flush aside: the client attaches again, it
      becomes Active, the terminal is reset, or rendering history resets the style
      table. */
  ghost predicate Calls(sys: System, e: Event, sys': System, c: ClientId)
    requires c in sys.server.publisher.subs
  {
    || (e.Attach? && e.client == c)
    || (e.SwitchMode? && e.client == c && e.mode == Active && sys.server.publisher.subs[c].mode == Passive)
    || e.Reset?
    || (e.FetchHistory? && sys'.server.styles.generation > sys.server.styles.generation)
  }

  lemma AttachOwes(s: SurfaceState, d: ClientId, mode: AttachMode, now: nat, c: ClientId)
    requires c in s.publisher.subs
    ensures var s' := OnAttach(s, d, mode, now);
            c in s'.publisher.subs && (s'.publisher.subs[c].needsSnapshot <==> d == c || s.publisher.subs[c].needsSnapshot)
  {
  }

  lemma ModeOwes(sub: Subscription, mode: AttachMode)
    ensures WithMode(sub, mode).needsSnapshot <==> sub.needsSnapshot || (mode == Active && sub.mode == Passive)
  {
  }

  lemma ResetOwes(s: SurfaceState, screen: Screen, c: ClientId)
    requires c in s.publisher.subs
    ensures var s' := AfterReset(s, screen);
            c in s'.publisher.subs && s'.publisher.subs[c].needsSnapshot
  {
  }

  lemma FeedOwes(s: SurfaceState, screen: Screen, damage: Damage, titled: bool, bell: bool, c: ClientId)
    requires c in s.publisher.subs
    ensures var s' := AfterFeed(s, screen, damage, titled, bell);
            c in s'.publisher.subs && s'.publisher.subs[c].needsSnapshot == s.publisher.subs[c].needsSnapshot
  {
    hide AfterFeed;
    FedSub(s, screen, damage, titled, bell, c);
  }

  lemma ResizeOwes(s: SurfaceState, size: Size, screen: Screen, c: ClientId)
    requires c in s.publisher.subs
    ensures var s' := AfterResize(s, size, screen);
            c in s'.publisher.subs && s'.publisher.subs[c].needsSnapshot == s.publisher.subs[c].needsSnapshot
  {
  }

  lemma ExitOwes(s: SurfaceState, status: ExitStatus, c: ClientId)
    requires c in s.publisher.subs
    ensures var s' := AfterExit(s, status);
            c in s'.publisher.subs && s'.publisher.subs[c].needsSnapshot == s.publisher.subs[c].needsSnapshot
  {
  }

  lemma HistoryOwes(s: SurfaceState, lines: seq<Line>, c: ClientId)
    requires ServerOk(s) && c in s.publisher.subs
    ensures var s' := AfterHistory(s, lines);
            && c in s'.publisher.subs
            && (s'.publisher.subs[c].needsSnapshot <==>
                  s.publisher.subs[c].needsSnapshot || s'.styles.generation > s.styles.generation)
  {
    hide PackRows;
    PackRowsShow(lines, s.styles);
  }

  lemma AckOwes(sub: Subscription, seqNo: nat, now: nat, ackWindow: nat)
    ensures Acked(sub, seqNo, now, ackWindow).needsSnapshot == sub.needsSnapshot
  {
  }

  lemma QuietOwes(sys: System, e: Event, sys': System, c: ClientId)
    requires Inv(sys) && Follows(sys, e, sys') && c in sys.server.publisher.subs && c in sys'.server.publisher.subs && !e.Flush?
    ensures sys'.server.publisher.subs[c].needsSnapshot <==> sys.server.publisher.subs[c].needsSnapshot || Calls(sys, e, sys', c)
  {
    hide AfterFeed, AfterExit, AfterFlush, Acked, LinkOk, Tracks, ServerOk, AfterHistory, AfterResize, AfterReset, OnAttach, WithMode;
    hide Pushed, Broadcast, PoppedDown, Advances, HistoryLines;
    var s := sys.server;
    InvServer(sys);
    match e {
      case Attach(d, mode, now) => AttachOwes(s, d, mode, now, c);
      case SwitchMode(d, mode) => ModeOwes(s.publisher.subs[c], mode);
      case Reset(screen) => ResetOwes(s, screen, c);
      case Feed(screen, damage, titled, bell) => FeedOwes(s, screen, damage, titled, bell, c);
      case Resize(size, screen) => ResizeOwes(s, size, screen, c);
      case FetchHistory(from, count) => HistoryOwes(s, HistoryLines(s.screen, from, count), c);
      case Exit(status) => ExitOwes(s, status, c);
      case DeliverUp(d, now) =>
        UpOk(sys.links[d]);
        AckOwes(s.publisher.subs[c], sys.links[d].up[0].seqNo, now, s.publisher.config.ackWindow);
      case _ =>
    }
  }

  lemma FlushOwesAs(sys: System, now: nat, sys': System, c: ClientId)
    requires Inv(sys) && Follows(sys, Flush(now), sys') && c in sys.server.publisher.subs
    requires !sys.server.publisher.subs[c].needsSnapshot
    ensures c in sys'.server.publisher.subs
    ensures sys'.server.publisher.subs[c].needsSnapshot ==> sys'.server.styles.generation > sys.server.styles.generation
  {
    hide Flushed, HandedAfter, Posted, LinkOk, Tracks, ServerOk;
    FlushOwes(sys, now, c);
  }

  /** After any step but a flush a Snapshot is owed exactly if it was before or the
      step called for one; a flush leaves one owed only if it reset the table. */
  lemma SnapshotOwedIff(sys: System, e: Event, sys': System, c: ClientId)
    requires Inv(sys) && Follows(sys, e, sys') && c in sys.server.publisher.subs && c in sys'.server.publisher.subs
    ensures var owed, owed' := sys.server.publisher.subs[c].needsSnapshot, sys'.server.publisher.subs[c].needsSnapshot;
            if e.Flush? then !owed && owed' ==> sys'.server.styles.generation > sys.server.styles.generation
            else owed' <==> owed || Calls(sys, e, sys', c)
  {
    hide Follows, Inv, Calls;
    if !e.Flush? {
      QuietOwes(sys, e, sys', c);
    } else if !sys.server.publisher.subs[c].needsSnapshot {
      FlushOwesAs(sys, e.now, sys', c);
    }
  }

  // ------------------------------------------------------------ the stall clock

  lemma FlushedAs(sys: System, now: nat, c: ClientId)
    requires Inv(sys) && ShouldFlush(sys.server.publisher, now) && c in sys.server.publisher.subs
    ensures var s, s' := sys.server, Flushed(sys.server, now).0;
            && c in s'.publisher.subs
            && var flushed := FlushedSub(s.publisher, c, now, s.seqNo + 1, s.styles.generation).0;
               && s'.publisher.subs[c].lastSent == flushed.lastSent && s'.publisher.subs[c].lastAcked == flushed.lastAcked
               && s'.publisher.subs[c].stalledSince == flushed.stalledSince
  {
    hide FlushedOne, Flushed, ShouldFlush, Tracks, LinkOk, HandedAfter, Posted, Emissions;
    FlushMoves(sys, now, c);
    assert AfterFlush(sys, now).server == Flushed(sys.server, now).0;
  }

  /** What a flush makes of a subscription's clocks. A Snapshot leaves one frame
      outstanding, so the window is open again; a withheld client's stall clock
      starts now or runs on; any served client's is off. */
  lemma FlushClocks(sys: System, now: nat, c: ClientId)
    requires Inv(sys) && ShouldFlush(sys.server.publisher, now) && c in sys.server.publisher.subs
    ensures var s, sub, s' := sys.server, sys.server.publisher.subs[c], Flushed(sys.server, now).0;
            var owes := OwesSnapshot(sub, s.publisher.config, now, s.styles.generation);
            var served := IsServed(sub, s.publisher.config, now, s.styles.generation);
            && c in s'.publisher.subs
            && var sub' := s'.publisher.subs[c];
               && (owes ==> sub'.lastSent == s.seqNo + 1 && sub'.lastAcked == s.seqNo)
               && (served && !owes ==> sub'.lastSent == s.seqNo + 1 && sub'.lastAcked == sub.lastAcked)
               && (!served ==> sub'.lastSent == sub.lastSent && sub'.lastAcked == sub.lastAcked)
               && sub'.stalledSince ==
                    if served then None
                    else if sub.pending.IsEmpty() || sub.stalledSince.Some? then sub.stalledSince
                    else Some(now)
  {
    hide FlushedOne, Flushed, ShouldFlush, Tracks, LinkOk, ServerOk, OwesSnapshot, IsServed;
    var s, sub := sys.server, sys.server.publisher.subs[c];
    FlushedAs(sys, now, c);
    OneClocks(c, sub, s.publisher.config, s.publisher.rows, now, s.seqNo + 1, s.styles.generation);
  }

  lemma OneClocks(c: ClientId, sub: Subscription, config: PublisherConfig, rows: nat, now: nat, seqNo: nat, generation: nat)
    requires seqNo >= 1
    ensures var flushed := FlushedOne(c, sub, config, rows, now, seqNo, generation).0;
            var owes, served := OwesSnapshot(sub, config, now, generation), IsServed(sub, config, now, generation);
            && (owes ==> flushed.lastSent == seqNo && flushed.lastAcked == seqNo - 1)
            && (served && !owes ==> flushed.lastSent == seqNo && flushed.lastAcked == sub.lastAcked)
            && (!served ==> flushed.lastSent == sub.lastSent && flushed.lastAcked == sub.lastAcked)
            && flushed.stalledSince ==
                 if served then None
                 else if sub.pending.IsEmpty() || sub.stalledSince.Some? then sub.stalledSince
                 else Some(now)
  {
  }

  // ------------------------------------------------------------ Passive subscriptions

  predicate IsBare(frame: Frame) {
    match frame
    case SnapshotMsg(snap) => snap.grid == [] && snap.styles == []
    case DeltaMsg(d) => d.rows == [] && d.newStyles == []
    case _ => true
  }

  ghost predicate BareWherePassive(down: seq<Sent>) {
    forall k :: 0 <= k < |down| && down[k].mode == Passive ==> IsBare(down[k].frame)
  }

  ghost predicate AllBare(links: map<ClientId, Link>) {
    forall c :: c in links ==> BareWherePassive(links[c].down)
  }

  lemma {:induction false} PostedBare(links: map<ClientId, Link>, subs: map<ClientId, Subscription>, frames: seq<ClientFrame>)
    requires AllBare(links)
    ensures AllBare(Posted(links, subs, frames))
  {
    if frames == [] {
    } else {
      hide Stripped, IsBare;
      PostedBare(links, subs, frames[..|frames| - 1]);
      StrippedBare(frames[|frames| - 1].frame);
    }
  }

  lemma StrippedBare(frame: Frame)
    ensures IsBare(Stripped(frame, Passive))
  {
  }

  lemma StepBare(sys: System, e: Event, sys': System)
    requires Inv(sys) && Follows(sys, e, sys') && AllBare(sys.links)
    ensures AllBare(sys'.links)
  {
    hide Flushed, HandedAfter, Posted, AfterFeed, AfterResize, AfterReset, AfterHistory, AfterExit, OnAttach, OnUp, WithSub;
    hide Dispatched, LinkOk, Tracks, ServerOk;
    if e.Flush? {
      PostedBare(sys.links, Flushed(sys.server, e.now).0.publisher.subs, Flushed(sys.server, e.now).1);
    }
  }

  lemma {:induction false} RunBare(states: seq<System>, events: seq<Event>, k: nat)
    requires IsRun(states, events) && k <= |events|
    ensures AllBare(states[k].links)
  {
    hide Follows, Inv, AllBare;
    if k == 0 {
      BareAtFirst(states[0]);
    } else {
      RunBare(states, events, k - 1);
      RunInv(states, events, k - 1);
      assert Follows(states[k - 1], events[k - 1], states[k]);
      StepBare(states[k - 1], events[k - 1], states[k]);
    }
  }

  lemma BareAtFirst(sys: System)
    requires Initial(sys)
    ensures AllBare(sys.links)
  {
  }

  /** A Passive subscription is never sent rows or styles. */
  lemma PassiveGetsNoRows(states: seq<System>, events: seq<Event>, c: ClientId, k: nat, i: nat)
    requires IsRun(states, events) && k <= |events| && c in states[k].links && i < |states[k].links[c].down|
    ensures states[k].links[c].down[i].mode == Passive ==> IsBare(states[k].links[c].down[i].frame)
  {
    hide Follows, IsBare;
    RunBare(states, events, k);
  }
}
