/** The main results about every reachable state: every step keeps the invariant,
    so every client converges, no client ever sees a Gap, and every client's style
    table agrees with the server's. */
module Convergence {
  import opened Wire
  import opened Engine
  import opened Publishing
  import opened Surfaces
  import opened Replicas
  import opened Systems
  import opened Invariants
  import opened FlushLemmas

  // ------------------------------------------------------------ channels

  /** What a client answers does not depend on the attachment it remembers. */
  lemma {:induction false} AttachedIrrelevant(link: Link, mode: Option<AttachMode>)
    requires StreamOk(link)
    ensures var other := link.(attached := mode);
            && StreamOk(other)
            && Drained(other).replica == Drained(link).replica && Drained(other).up == Drained(link).up
    decreases |link.down|
  {
    if link.down == [] {
    } else {
      var next := PoppedDown(link);
      AttachedIrrelevant(next, if link.down[0].frame.DetachedMsg? then None else mode);
    }
  }

  /** Answers queue behind those already waiting. */
  lemma {:induction false} DrainedUp(link: Link)
    requires StreamOk(link) && link.up != []
    ensures var rest := link.(up := link.up[1..]);
            && StreamOk(rest) && Drained(rest).replica == Drained(link).replica
            && Drained(link).up == [link.up[0]] + Drained(rest).up
    decreases |link.down|
  {
    if link.down != [] {
      var next, rest := PoppedDown(link), link.(up := link.up[1..]);
      assert next.up[1..] == PoppedDown(rest).up;
      DrainedUp(next);
      assert PoppedDown(rest) == next.(up := next.up[1..]);
    } else {
      assert link.up == [link.up[0]] + link.up[1..];
    }
  }

  // ------------------------------------------------------------ steps

  /** The invariant after a step that changes at most one link and the server. */
  lemma OneLink(sys: System, sys': System, c: ClientId)
    requires Inv(sys) && ServerOk(sys'.server) && sys'.server.publisher.subs.Keys <= sys'.links.Keys
    requires sys'.links.Keys == sys.links.Keys + {c}
    requires forall d :: d in sys.links && d != c ==> sys'.links[d] == sys.links[d]
    requires LinkOk(sys'.links[c])
    requires c in sys'.server.publisher.subs ==> Tracks(sys'.server, sys'.server.publisher.subs[c], Drained(sys'.links[c]))
    requires forall d :: d in sys'.server.publisher.subs && d != c ==>
               d in sys.server.publisher.subs && sys'.server.publisher.subs[d] == sys.server.publisher.subs[d]
    requires sys'.server == sys.server.(publisher := sys'.server.publisher)
    ensures Inv(sys')
  {
    hide Drained, LinkOk, Synced, ServerOk;
    forall d | d in sys'.server.publisher.subs && d != c
      ensures Tracks(sys'.server, sys'.server.publisher.subs[d], Drained(sys'.links[d]))
    {
      TracksRestamped(sys.server, sys'.server, sys.server.publisher.subs[d], Drained(sys.links[d]));
    }
  }

  lemma AttachKeeps(sys: System, c: ClientId, mode: AttachMode, now: nat)
    requires Inv(sys) && c in sys.links
    ensures Inv(sys.(server := OnAttach(sys.server, c, mode, now), links := sys.links[c := sys.links[c].(attached := Some(mode))]))
  {
    hide Synced, Drained, LinkOk;
    var sys' := sys.(server := OnAttach(sys.server, c, mode, now), links := sys.links[c := sys.links[c].(attached := Some(mode))]);
    AttachedOk(sys.links[c], mode);
    OneLink(sys, sys', c);
  }

  lemma AttachedOk(link: Link, mode: AttachMode)
    requires LinkOk(link)
    ensures var other := link.(attached := Some(mode));
            LinkOk(other) && Drained(other).replica == Drained(link).replica && Drained(other).up == Drained(link).up
  {
    hide StreamOk, Drained;
    AttachedIrrelevant(link, Some(mode));
  }

  lemma SwitchKeeps(sys: System, c: ClientId, mode: AttachMode)
    requires Inv(sys) && c in sys.server.publisher.subs
    ensures Inv(sys.(server := WithSub(sys.server, c, WithMode(sys.server.publisher.subs[c], mode))))
  {
    hide Drained, LinkOk, Synced;
    var sub := sys.server.publisher.subs[c];
    var sys' := sys.(server := WithSub(sys.server, c, WithMode(sub, mode)));
    if !WithMode(sub, mode).needsSnapshot {
      SwitchSynced(sys.server, sys'.server, sub, mode, Drained(sys.links[c]).replica);
    }
    OneLink(sys, sys', c);
  }

  /** A switch that owes no Snapshot asks nothing new of the client. */
  lemma SwitchSynced(s: SurfaceState, s': SurfaceState, sub: Subscription, mode: AttachMode, r: ReplicaState)
    requires s' == s.(publisher := s'.publisher) && Synced(s, sub, r) && !WithMode(sub, mode).needsSnapshot
    ensures Synced(s', WithMode(sub, mode), r)
  {
    hide RowsSynced, StylesSynced;
  }

  lemma DetachKeeps(sys: System, c: ClientId)
    requires Inv(sys) && c in sys.server.publisher.subs
    ensures Inv(Next(sys, Detach(c)))
  {
    hide Tracks, LinkOk, Drained;
    var sys' := Next(sys, Detach(c));
    PlusOk(sys.links[c], Sent(DetachedMsg, Active));
    OneLink(sys, sys', c);
  }

  lemma PoppedOk(link: Link)
    requires LinkOk(link) && link.down != []
    ensures LinkOk(PoppedDown(link)) && Drained(PoppedDown(link)) == Drained(link)
  {
    hide PoppedDown;
    PoppedQuiet(link);
  }

  lemma PoppedQuiet(link: Link)
    requires link.down != [] && Fits(link.replica, link.down[0]) && Quiet(link.replica)
    ensures Quiet(PoppedDown(link).replica)
  {
    hide FitRows;
  }

  lemma DownKeeps(sys: System, c: ClientId)
    requires Inv(sys) && c in sys.links && sys.links[c].down != []
    ensures Inv(Next(sys, DeliverDown(c)))
  {
    hide LinkOk, Drained, ServerOk, PoppedDown, Tracks;
    PoppedOk(sys.links[c]);
  }

  lemma AckTracks(s: SurfaceState, sub: Subscription, settled: Link, seqNo: nat, now: nat, s': SurfaceState, settled': Link)
    requires SubOk(s, sub) && Tracks(s, sub, settled)
    requires settled'.replica == settled.replica && settled.up == [AckMsg(seqNo)] + settled'.up
    requires s' == s.(publisher := s'.publisher)
    ensures var sub' := Acked(sub, seqNo, now, s.publisher.config.ackWindow);
            SubOk(s', sub') && Tracks(s', sub', settled')
  {
    hide RowShows;
  }

  lemma UpKeeps(sys: System, c: ClientId, now: nat)
    requires Inv(sys) && c in sys.links && sys.links[c].up != []
    ensures Inv(Next(sys, DeliverUp(c, now)))
  {
    hide Synced, LinkOk, Drained, Tracks;
    var s, link, sys' := sys.server, sys.links[c], Next(sys, DeliverUp(c, now));
    UpOk(link);
    if c in s.publisher.subs {
      AckTracks(s, s.publisher.subs[c], Drained(link), link.up[0].seqNo, now, sys'.server, Drained(sys'.links[c]));
    }
    OneLink(sys, sys', c);
  }

  /** Only acks are on their way up, and delivering one leaves the rest. */
  lemma UpOk(link: Link)
    requires LinkOk(link) && link.up != []
    ensures var rest := link.(up := link.up[1..]);
            && link.up[0].AckMsg? && LinkOk(rest)
            && Drained(rest).replica == Drained(link).replica && Drained(link).up == [link.up[0]] + Drained(rest).up
  {
    hide StreamOk;
    DrainedUp(link);
    assert link.up[0] in Drained(link).up;
    assert forall m :: m in Drained(link.(up := link.up[1..])).up ==> m in Drained(link).up;
  }

  lemma ExitTracks(s: SurfaceState, sub: Subscription, link: Link, status: ExitStatus)
    requires SubOk(s, sub) && LinkOk(link) && Tracks(s, sub, Drained(link))
    ensures var s' := AfterExit(s, status);
            var sub' := EventSent(sub, s.seqNo + 1);
            var link' := Plus(link, Sent(ExitedMsg(s.seqNo + 1, status), sub.mode));
            SubOk(s', sub') && LinkOk(link') && Tracks(s', sub', Drained(link'))
  {
    hide RowShows, Drained;
    PlusOk(link, Sent(ExitedMsg(s.seqNo + 1, status), sub.mode));
  }

  lemma ExitKeeps(sys: System, status: ExitStatus)
    requires Inv(sys)
    ensures Inv(Next(sys, Exit(status)))
  {
    hide SubOk, LinkOk, Tracks, Drained;
    var s, sys' := sys.server, Next(sys, Exit(status));
    forall c | c in s.publisher.subs
      ensures SubOk(sys'.server, sys'.server.publisher.subs[c])
      ensures LinkOk(sys'.links[c]) && Tracks(sys'.server, sys'.server.publisher.subs[c], Drained(sys'.links[c]))
    {
      ExitTracks(s, s.publisher.subs[c], sys.links[c], status);
    }
  }

  lemma InvServer(sys: System)
    requires Inv(sys)
    ensures ServerOk(sys.server) && sys.server.screen.Valid()
  {
  }

  /** Every step of the system keeps the invariant. */
  lemma StepKeeps(sys: System, e: Event)
    requires Inv(sys) && Enabled(sys, e)
    ensures Inv(Next(sys, e))
  {
    hide Tracks, LinkOk, Drained, ServerOk, AfterFeed, AfterResize, AfterReset, AfterHistory;
    hide AfterFlush, AfterExit, OnAttach, OnUp, WithMode, Pushed, Broadcast, PoppedDown, Advances;
    var s := sys.server;
    InvServer(sys);
    match e
    case Connect(c, cap) => ConnectKeeps(sys, c, cap);
    case Attach(c, mode, now) => AttachKeeps(sys, c, mode, now);
    case SwitchMode(c, mode) =>
      if c in s.publisher.subs {
        SwitchKeeps(sys, c, mode);
      }
    case Detach(c) => DetachKeeps(sys, c);
    case Feed(screen, damage, titled, bell) => FeedKeeps(s, screen, damage, titled, bell);
    case Resize(size, screen) => ResizeKeeps(s, size, screen);
    case Reset(screen) => ResetKeeps(s, screen);
    case Exit(status) => ExitKeeps(sys, status);
    case FetchHistory(from, count) => HistoryKeeps(s, HistoryLines(s.screen, from, count));
    case Flush(now) => FlushKeeps(sys, now);
    case DeliverDown(c) => DownKeeps(sys, c);
    case DeliverUp(c, now) => UpKeeps(sys, c, now);
  }

  lemma ConnectKeeps(sys: System, c: ClientId, cap: nat)
    requires Inv(sys) && c !in sys.links
    ensures Inv(Next(sys, Connect(c, cap)))
  {
    hide Tracks, LinkOk, Drained;
    NewLinkOk(cap);
    OneLink(sys, Next(sys, Connect(c, cap)), c);
  }

  lemma NewLinkOk(cap: nat)
    ensures LinkOk(Link(NewReplica(cap), None, [], []))
  {
  }

  // ------------------------------------------------------------ runs

  /** One step of a run. */
  ghost predicate Follows(sys: System, e: Event, sys': System) {
    sys.server.screen.Valid() && Enabled(sys, e) && sys' == Next(sys, e)
  }

  /** The states of a run, one more than its events. */
  ghost predicate IsRun(states: seq<System>, events: seq<Event>) {
    && |states| == |events| + 1
    && Initial(states[0])
    && forall k :: 0 <= k < |events| ==> Follows(states[k], events[k], states[k + 1])
  }

  lemma InitialInv(sys: System)
    requires Initial(sys)
    ensures Inv(sys)
  {
  }

  lemma {:induction false} RunInv(states: seq<System>, events: seq<Event>, k: nat)
    requires IsRun(states, events) && k < |states|
    ensures Inv(states[k])
  {
    if k == 0 {
      InitialInv(states[0]);
    } else {
      RunInv(states, events, k - 1);
      assert Follows(states[k - 1], events[k - 1], states[k]);
      StepKeeps(states[k - 1], events[k - 1]);
    }
  }

  ghost predicate Reachable(sys: System) {
    exists states, events :: IsRun(states, events) && states[|events|] == sys
  }

  lemma ReachableInv(sys: System)
    requires Reachable(sys)
    ensures Inv(sys)
  {
    var states, events :| IsRun(states, events) && states[|events|] == sys;
    RunInv(states, events, |events|);
  }

  // ------------------------------------------------------------ results

  /** The replica shows what the engine shows: every visible cell with its
      style, and every scalar. */
  ghost predicate ShowsAll(r: ReplicaState, s: SurfaceState) {
    && r.cols == s.screen.cols && r.rows == s.screen.rows
    && |r.visible| == s.screen.rows == |s.screen.lines|
    && (forall i :: 0 <= i < s.screen.rows ==> RowShows(r.styles, r.visible[i], s.screen.lines[i]))
    && ShowsScalars(r, s)
  }

  ghost predicate ShowsScalars(r: ReplicaState, s: SurfaceState) {
    && r.cursor == s.screen.cursor && r.modes == s.screen.modes && r.title == s.screen.title
    && r.historyBase == s.screen.historyBase && r.historyLen == s.screen.historyLen
    && r.exited == s.status
  }

  /** Convergence: in every reachable state, a client that owes no Snapshot and
      has applied everything sent to it agrees with the engine on whatever its
      subscription does not have pending; with nothing pending but a bell, an
      Active client shows exactly the engine's screen. */
  lemma ClientsConverge(sys: System, c: ClientId)
    requires Reachable(sys) && c in sys.server.publisher.subs
    requires !sys.server.publisher.subs[c].needsSnapshot
    ensures c in sys.links
    ensures var s, sub, link := sys.server, sys.server.publisher.subs[c], sys.links[c];
            link.down == [] ==>
              && link.replica.seqNo == sub.lastSent
              && ScalarsSynced(s, sub.pending, link.replica)
              && (sub.mode == Active ==> RowsSynced(s.screen, sub.pending, link.replica))
              && (!sub.pending.HasState() ==> ShowsScalars(link.replica, s))
              && (!sub.pending.HasState() && sub.mode == Active ==> ShowsAll(link.replica, s))
  {
    ReachableInv(sys);
  }

  /** No false Gap: in every reachable state no client has counted a Gap or
      asked for a Resync, and everything on its way to it will chain. */
  lemma NoFalseGap(sys: System, c: ClientId)
    requires Reachable(sys) && c in sys.links
    ensures sys.links[c].replica.counters.gaps == 0 && sys.links[c].replica.counters.resyncs == 0
    ensures StreamOk(sys.links[c])
    ensures forall m :: m in sys.links[c].up ==> m.AckMsg?
  {
    ReachableInv(sys);
    UpStays(sys.links[c]);
  }

  lemma {:induction false} UpStays(link: Link)
    ensures link.up <= Drained(link).up
    decreases |link.down|
  {
    if link.down == [] {
    } else {
      UpStays(PoppedDown(link));
    }
  }

  /** Style soundness: in every reachable state, an Active client whose
      subscription lives in the table's generation will hold exactly the entries
      it was sent, whatever other clients' frames interned in between. */
  lemma StylesAgree(sys: System, c: ClientId)
    requires Reachable(sys) && c in sys.server.publisher.subs
    ensures c in sys.links
    ensures var t, sub, r := sys.server.styles, sys.server.publisher.subs[c], Drained(sys.links[c]).replica;
            sub.mode == Active && !sub.needsSnapshot && sub.stylesGeneration == t.generation ==>
              sub.stylesSent <= |t.table| && r.styles == t.table[..sub.stylesSent]
  {
    ReachableInv(sys);
  }
}
