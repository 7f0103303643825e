/** Eventual consistency: from any reachable state, delivering what is on its
    way, then the answers, then one due flush and its frames, brings an Active
    client to exactly what the engine shows. */
module Eventual {
  import opened Wire
  import opened Engine
  import opened Publishing
  import opened Surfaces
  import opened Replicas
  import opened Systems
  import opened Invariants
  import opened FlushLemmas
  import opened Convergence
  import opened Discipline

  lemma SyncedShows(s: SurfaceState, sub: Subscription, r: ReplicaState)
    requires s.screen.Valid() && Synced(s, sub, r) && sub.mode == Active
    requires !sub.pending.HasState() && sub.pending.dirty.rows == s.screen.rows
    ensures ShowsAll(r, s)
  {
    assert 0 in Below(s.screen.rows);
  }

  /** At the end of a flush's frame loop every client is tracked by the
      subscription the publisher left, its style cursor aside. */
  lemma LoopTracks(sys: System, now: nat, c: ClientId, modes: map<ClientId, Subscription>)
    requires Inv(sys) && c in sys.server.publisher.subs && SameModes(sys.server.publisher.subs, modes)
    ensures var s, emissions := sys.server, EmissionsAt(sys.server, now);
            var built := Built(LoopStart(s, now), emissions, |emissions|);
            var links := Posted(sys.links, modes, built.frames);
            && c in built.state.publisher.subs && c in links
            && var sub := built.state.publisher.subs[c];
               && Tracks(built.state, sub, Drained(links[c])) && SubOk(built.state, sub)
               && sub == StylesRecorded(FlushedSub(s.publisher, c, now, s.seqNo + 1, s.styles.generation).0,
                                        sub.stylesGeneration, sub.stylesSent)
  {
    hide Tracks, SubOk, Drained, FlushedOne, Emissions, Built, LinkOk, Among, Posted;
    var s, start, emissions := sys.server, LoopStart(sys.server, now), EmissionsAt(sys.server, now);
    var built := Built(start, emissions, |emissions|);
    FrameLoop(sys, now, modes, |emissions|);
    BuiltSubs(start, emissions, |emissions|);
    if !Among(emissions, |emissions|, c) {
      UnservedTracks(sys, now, c, start, built.state);
    }
  }

  /** A flush at `now` sends the client nothing but a bell, though something is
      pending: its window is full, its grace period is not over, and nothing
      forces a Snapshot. */
  predicate HeldBack(sub: Subscription, config: PublisherConfig, now: nat, generation: nat) {
    && sub.pending.HasState() && !sub.needsSnapshot && sub.stylesGeneration == generation
    && sub.IsWindowBlocked(config.ackWindow)
    && Elapsed(now, StalledAt(sub, now)) < config.slowClientSnapshotAfter
  }

  /** A flush that does not hold a client back leaves nothing of it pending. */
  lemma FlushClears(c: ClientId, sub: Subscription, config: PublisherConfig, rows: nat, now: nat, seqNo: nat, generation: nat)
    requires sub.pending.dirty.rows == rows
    requires !HeldBack(sub, config, now, generation)
    ensures var sub' := FlushedOne(c, sub, config, rows, now, seqNo, generation).0;
            !sub'.needsSnapshot && !sub'.pending.HasState() && sub'.mode == sub.mode && sub'.pending.dirty.rows == rows
  {
  }

  /** ... so its client shows everything, whatever it becomes of its style cursor. */
  lemma ClearedShows(s: SurfaceState, sub: Subscription, flushed: Subscription, settled: Link)
    requires s.screen.Valid() && Tracks(s, sub, settled)
    requires !flushed.needsSnapshot && !flushed.pending.HasState() && flushed.mode == Active
    requires flushed.pending.dirty.rows == s.screen.rows
    requires sub == StylesRecorded(flushed, sub.stylesGeneration, sub.stylesSent)
    ensures ShowsAll(settled.replica, s)
  {
    hide ShowsAll, Synced;
    SyncedShows(s, sub, settled.replica);
  }

  /** One flush that does something, for a client it does not hold back. */
  lemma FlushShows(sys: System, now: nat, c: ClientId)
    requires Inv(sys) && c in sys.server.publisher.subs
    requires var sub := sys.server.publisher.subs[c];
             sub.mode == Active && !HeldBack(sub, sys.server.publisher.config, now, sys.server.styles.generation)
    requires ShouldFlush(sys.server.publisher, now) && EmissionsAt(sys.server, now) != []
    ensures var sys' := AfterFlush(sys, now);
            c in sys'.links && ShowsAll(Drained(sys'.links[c]).replica, sys'.server)
  {
    hide Drained, FlushedOne, Emissions, Posted, ShowsAll, Tracks, LinkOk, Built, FlushedState;
    var s, sub, emissions := sys.server, sys.server.publisher.subs[c], EmissionsAt(sys.server, now);
    var built := Built(LoopStart(s, now), emissions, |emissions|);
    var modes := Closed(built).publisher.subs;
    ClosedModes(s, now);
    LoopTracks(sys, now, c, modes);
    FlushClears(c, sub, s.publisher.config, s.publisher.rows, now, s.seqNo + 1, s.styles.generation);
    var settled := Drained(Posted(sys.links, modes, built.frames)[c]);
    ClearedShows(built.state, built.state.publisher.subs[c],
                 FlushedSub(s.publisher, c, now, s.seqNo + 1, s.styles.generation).0, settled);
    ShowsRestamped(settled.replica, built.state, Closed(built));
  }

  lemma ShowsRestamped(r: ReplicaState, s: SurfaceState, s': SurfaceState)
    requires ShowsAll(r, s) && s'.screen == s.screen && s'.status == s.status
    ensures ShowsAll(r, s')
  {
  }

  /** A due flush that does nothing leaves a client that was owed nothing. */
  lemma NoFlushShows(sys: System, now: nat, c: ClientId)
    requires Inv(sys) && c in sys.server.publisher.subs
    requires var sub := sys.server.publisher.subs[c];
             sub.mode == Active && !HeldBack(sub, sys.server.publisher.config, now, sys.server.styles.generation)
    requires IsDue(sys.server.publisher, now)
    requires !ShouldFlush(sys.server.publisher, now) || EmissionsAt(sys.server, now) == []
    ensures c in sys.links && ShowsAll(Drained(sys.links[c]).replica, sys.server)
  {
    hide Drained, ShowsAll, Synced, Emissions;
    var s, sub := sys.server, sys.server.publisher.subs[c];
    if sub.IsOwed() {
      OwedEmission(s.publisher, now, s.seqNo + 1, s.styles.generation, c);
    }
    SyncedShows(s, sub, Drained(sys.links[c]).replica);
  }

  /** A due flush brings every Active client it does not hold back to the
      engine's screen, once its frames arrive. */
  lemma DueFlushShows(sys: System, now: nat, c: ClientId)
    requires Inv(sys) && c in sys.server.publisher.subs
    requires var sub := sys.server.publisher.subs[c];
             sub.mode == Active && !HeldBack(sub, sys.server.publisher.config, now, sys.server.styles.generation)
    requires IsDue(sys.server.publisher, now)
    ensures var sys' := AfterFlush(sys, now);
            c in sys'.links && ShowsAll(Drained(sys'.links[c]).replica, sys'.server)
  {
    hide Drained, ShowsAll, Emissions, FlushedOne, Built;
    if ShouldFlush(sys.server.publisher, now) && EmissionsAt(sys.server, now) != [] {
      FlushShows(sys, now, c);
    } else {
      NoFlushShows(sys, now, c);
      ShowsRestamped(Drained(sys.links[c]).replica, sys.server, AfterFlush(sys, now).server);
    }
  }

  // ------------------------------------------------------------ a client held back

  /** The frames of a flush for a client that is held back are bells. */
  lemma HeldBackFrames(s: SurfaceState, now: nat, c: ClientId)
    requires s.screen.Valid() && c in s.publisher.subs
    requires HeldBack(s.publisher.subs[c], s.publisher.config, now, s.styles.generation)
    ensures forall f :: f in Flushed(s, now).1 && f.client == c ==> f.frame == BellMsg
  {
    hide Emissions, FlushedOne, FrameStep;
    var emissions, frames := EmissionsAt(s, now), Flushed(s, now).1;
    BuiltFrames(LoopStart(s, now), emissions, |emissions|);
    forall f | f in frames && f.client == c
      ensures f.frame == BellMsg
    {
      var j :| 0 <= j < |emissions| && FrameOf(s.seqNo + 1, emissions[j], f);
      EmissionOwed(s.publisher, now, s.seqNo + 1, s.styles.generation, j);
      HeldBackOwed(c, s.publisher.subs[c], s.publisher.config, s.publisher.rows, now, s.seqNo + 1, s.styles.generation);
    }
  }

  lemma HeldBackOwed(c: ClientId, sub: Subscription, config: PublisherConfig, rows: nat, now: nat, seqNo: nat, generation: nat)
    requires HeldBack(sub, config, now, generation)
    ensures var owed := FlushedOne(c, sub, config, rows, now, seqNo, generation).1;
            owed.None? || owed.value.kind == BellOnly
  {
  }

  /** Bells change nothing a client shows. */
  lemma {:induction false} BellsPosted(links: map<ClientId, Link>, modes: map<ClientId, Subscription>, frames: seq<ClientFrame>, c: ClientId)
    requires c in links && StreamOk(links[c])
    requires forall f :: f in frames && f.client == c ==> f.frame == BellMsg
    ensures var posted := Posted(links, modes, frames);
            c in posted && StreamOk(posted[c]) && Drained(posted[c]).replica == Drained(links[c]).replica
  {
    hide Drained, StreamOk;
    if frames == [] {
    } else {
      var front, last := frames[..|frames| - 1], frames[|frames| - 1];
      BellsPosted(links, modes, front, c);
      if last.client == c {
        Append(Posted(links, modes, front)[c], Sent(BellMsg, ModeIn(modes, c)));
      }
    }
  }

  /** A due flush brings an Active client to the engine's screen if and only
      if it does not hold the client back, or the client was there already. */
  lemma DueFlushShowsIff(sys: System, now: nat, c: ClientId)
    requires Inv(sys) && c in sys.server.publisher.subs && sys.server.publisher.subs[c].mode == Active
    requires IsDue(sys.server.publisher, now)
    ensures var sys' := AfterFlush(sys, now);
            && c in sys.links && c in sys'.links
            && (ShowsAll(Drained(sys'.links[c]).replica, sys'.server) <==>
                  || !HeldBack(sys.server.publisher.subs[c], sys.server.publisher.config, now, sys.server.styles.generation)
                  || ShowsAll(Drained(sys.links[c]).replica, sys.server))
  {
    hide Drained, ShowsAll, Flushed, StreamOk, HeldBack;
    if HeldBack(sys.server.publisher.subs[c], sys.server.publisher.config, now, sys.server.styles.generation) {
      HeldBackFrames(sys.server, now, c);
      var sys' := AfterFlush(sys, now);
      BellsPosted(sys.links, sys'.server.publisher.subs, Flushed(sys.server, now).1, c);
      FlushKeepsScreen(sys, now);
      SameShows(Drained(sys.links[c]).replica, sys.server, sys'.server);
    } else {
      DueFlushShows(sys, now, c);
    }
  }

  lemma SameShows(r: ReplicaState, s: SurfaceState, s': SurfaceState)
    requires s'.screen == s.screen && s'.status == s.status
    ensures ShowsAll(r, s') <==> ShowsAll(r, s)
  {
  }

  // ------------------------------------------------------------ draining

  /** Every frame on its way to `c` delivered, one at a time. */
  ghost function AllDown(sys: System, c: ClientId): System
    requires Inv(sys) && c in sys.links
    decreases |sys.links[c].down|
  {
    if sys.links[c].down == [] then sys
    else
      DownKeeps(sys, c);
      AllDown(Next(sys, DeliverDown(c)), c)
  }

  /** Every answer of `c` delivered at `now`, one at a time. */
  ghost function AllUp(sys: System, c: ClientId, now: nat): System
    requires Inv(sys) && c in sys.links
    decreases |sys.links[c].up|
  {
    if sys.links[c].up == [] then sys
    else
      UpKeeps(sys, c, now);
      UpShrinks(sys, c, now);
      AllUp(Next(sys, DeliverUp(c, now)), c, now)
  }

  lemma UpShrinks(sys: System, c: ClientId, now: nat)
    requires Inv(sys) && c in sys.links && sys.links[c].up != []
    ensures var sys' := Next(sys, DeliverUp(c, now));
            && c in sys'.links && sys'.links[c].down == sys.links[c].down && |sys'.links[c].up| < |sys.links[c].up|
            && sys'.server.publisher.subs.Keys == sys.server.publisher.subs.Keys
            && (c in sys.server.publisher.subs ==>
                 sys'.server.publisher.subs[c].mode == sys.server.publisher.subs[c].mode)
            && sys'.server.screen == sys.server.screen
            && sys'.server.publisher.config == sys.server.publisher.config
            && sys'.server.publisher.lastFlush == sys.server.publisher.lastFlush
  {
    hide LinkOk, Tracks, ServerOk, Drained;
    UpOk(sys.links[c]);
  }

  lemma {:induction false} AllDownDrains(sys: System, c: ClientId)
    requires Inv(sys) && c in sys.links
    ensures var sys' := AllDown(sys, c);
            && Inv(sys') && sys'.server == sys.server && c in sys'.links
            && sys'.links[c] == Drained(sys.links[c]) && sys'.links[c].down == []
    decreases |sys.links[c].down|
  {
    if sys.links[c].down != [] {
      DownKeeps(sys, c);
      AllDownDrains(Next(sys, DeliverDown(c)), c);
    }
  }

  lemma {:induction false} AllUpDrains(sys: System, c: ClientId, now: nat)
    requires Inv(sys) && c in sys.links
    ensures var sys' := AllUp(sys, c, now);
            && Inv(sys') && c in sys'.links && sys'.links[c].up == [] && sys'.links[c].down == sys.links[c].down
            && sys'.server.publisher.subs.Keys == sys.server.publisher.subs.Keys
            && (c in sys.server.publisher.subs ==>
                 sys'.server.publisher.subs[c].mode == sys.server.publisher.subs[c].mode)
            && sys'.server.screen == sys.server.screen
            && sys'.server.publisher.config == sys.server.publisher.config
            && sys'.server.publisher.lastFlush == sys.server.publisher.lastFlush
    decreases |sys.links[c].up|
  {
    if sys.links[c].up != [] {
      UpKeeps(sys, c, now);
      UpShrinks(sys, c, now);
      AllUpDrains(Next(sys, DeliverUp(c, now)), c, now);
    }
  }

  /** Eventual consistency: from any reachable state, delivering every frame,
      then every answer, then one due flush and its frames brings an Active
      client to exactly what the engine shows, if the publisher allows any
      frame in flight. With a zero window it does if and only if that flush
      does not hold the client back, or the client was there already. */
  lemma EventuallyConsistent(sys: System, c: ClientId, ackedAt: nat, now: nat)
    requires Reachable(sys) && c in sys.server.publisher.subs && sys.server.publisher.subs[c].mode == Active
    requires IsDue(sys.server.publisher, now)
    ensures Inv(sys) && c in sys.links
    ensures var delivered := AllDown(sys, c);
            && Inv(delivered) && c in delivered.links
            && var acked := AllUp(delivered, c, ackedAt);
               && Inv(acked) && c in acked.server.publisher.subs && c in acked.links
               && var flushed := AfterFlush(acked, now);
                  && Inv(flushed) && c in flushed.links
                  && var last := AllDown(flushed, c);
                     && c in last.links && last.links[c].down == []
                     && last.server.screen == sys.server.screen
                     && (sys.server.publisher.config.ackWindow >= 1 ==> ShowsAll(last.links[c].replica, last.server))
                     && (ShowsAll(last.links[c].replica, last.server) <==>
                           || !HeldBack(acked.server.publisher.subs[c], acked.server.publisher.config, now, acked.server.styles.generation)
                           || ShowsAll(acked.links[c].replica, acked.server))
  {
    hide ShowsAll, Drained, Synced, SubOk, LinkOk, AfterFlush, HeldBack;
    ReachableInv(sys);
    var delivered := AllDown(sys, c);
    AllDownDrains(sys, c);
    var acked := AllUp(delivered, c, ackedAt);
    AllUpDrains(delivered, c, ackedAt);
    var flushed := AfterFlush(acked, now);
    FlushKeeps(acked, now);
    DueFlushShowsIff(acked, now, c);
    NothingDown(acked.links[c]);
    if sys.server.publisher.config.ackWindow >= 1 {
      WindowOpens(acked, c);
      OpenNotHeld(acked.server.publisher.subs[c], acked.server.publisher.config, now, acked.server.styles.generation);
    }
    FlushKeepsScreen(acked, now);
    AllDownDrains(flushed, c);
  }

  lemma NothingDown(link: Link)
    requires link.down == []
    ensures Drained(link) == link
  {
  }

  lemma OpenNotHeld(sub: Subscription, config: PublisherConfig, now: nat, generation: nat)
    requires !sub.IsWindowBlocked(config.ackWindow)
    ensures !HeldBack(sub, config, now, generation)
  {
  }

  lemma FlushKeepsScreen(sys: System, now: nat)
    requires sys.server.screen.Valid()
    ensures AfterFlush(sys, now).server.screen == sys.server.screen && AfterFlush(sys, now).server.status == sys.server.status
  {
    hide FrameStep;
    BuiltSeq(LoopStart(sys.server, now), EmissionsAt(sys.server, now), |EmissionsAt(sys.server, now)|);
  }

  /** With both channels empty a client has acknowledged the last frame it was sent. */
  lemma WindowOpens(sys: System, c: ClientId)
    requires Inv(sys) && c in sys.server.publisher.subs && sys.links[c].down == [] && sys.links[c].up == []
    requires sys.server.publisher.config.ackWindow >= 1
    ensures !sys.server.publisher.subs[c].IsWindowBlocked(sys.server.publisher.config.ackWindow)
  {
    assert Drained(sys.links[c]) == sys.links[c];
  }
}
