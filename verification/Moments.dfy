/** What a client shows at every moment of a run, channels full or not: the
    screen of the flush whose frame it applied last. */
module Moments {
  import opened Wire
  import opened Engine
  import opened Publishing
  import opened Surfaces
  import opened Replicas
  import opened Systems
  import opened Invariants
  import opened FrameLemmas
  import opened FlushLemmas
  import opened Convergence
  import opened Discipline
  import opened Eventual

  // ------------------------------------------------------------ deliveries

  /** The replica after one frame; what it answers does not matter here. */
  function Taken(r: ReplicaState, frame: Frame): ReplicaState {
    Dispatched(Link(r, None, [], []), frame).replica
  }

  lemma TakenIs(link: Link, frame: Frame)
    ensures Dispatched(link, frame).replica == Taken(link.replica, frame)
  {
  }

  /** The frame `c` receives in event `e`, if it receives one. */
  function Delivered(sys: System, e: Event, c: ClientId): Option<Sent> {
    if e == DeliverDown(c) && c in sys.links && sys.links[c].down != [] then Some(sys.links[c].down[0]) else None
  }

  lemma {:induction false} PostedKeeps(links: map<ClientId, Link>, subs: map<ClientId, Subscription>, frames: seq<ClientFrame>)
    ensures var posted := Posted(links, subs, frames);
            posted.Keys == links.Keys && forall c :: c in links ==> posted[c].replica == links[c].replica
  {
    if frames == [] {
    } else {
      PostedKeeps(links, subs, frames[..|frames| - 1]);
    }
  }

  lemma FlushReplica(sys: System, now: nat, c: ClientId)
    requires sys.server.screen.Valid() && c in sys.links
    ensures c in AfterFlush(sys, now).links && AfterFlush(sys, now).links[c].replica == sys.links[c].replica
  {
    hide Flushed, HandedAfter, Posted;
    PostedKeeps(sys.links, AfterFlush(sys, now).server.publisher.subs, Flushed(sys.server, now).1);
  }

  lemma DownReplica(link: Link)
    requires link.down != []
    ensures PoppedDown(link).replica == Taken(link.replica, link.down[0].frame)
  {
    hide Dispatched;
    TakenIs(link.(down := link.down[1..]), link.down[0].frame);
  }

  lemma PushedReplica(links: map<ClientId, Link>, d: ClientId, sent: Sent, c: ClientId)
    requires c in links
    ensures c in Pushed(links, d, sent) && Pushed(links, d, sent)[c].replica == links[c].replica
  {
  }

  lemma BroadcastReplica(links: map<ClientId, Link>, subs: map<ClientId, Subscription>, frame: Frame, c: ClientId)
    requires c in links
    ensures c in Broadcast(links, subs, frame) && Broadcast(links, subs, frame)[c].replica == links[c].replica
  {
  }

  /** A step other than a delivery leaves every replica alone. */
  lemma QuietReplica(sys: System, e: Event, sys': System, c: ClientId)
    requires Inv(sys) && Follows(sys, e, sys') && c in sys.links && !e.DeliverDown?
    ensures c in sys'.links && sys'.links[c].replica == sys.links[c].replica
  {
    hide AfterFlush, AfterFeed, AfterResize, AfterReset, AfterHistory, AfterExit;
    hide OnAttach, OnUp, WithSub, PoppedDown, Pushed, Broadcast, Inv, Advances;
    match e {
      case Flush(now) => FlushReplica(sys, now, c);
      case Detach(d) => PushedReplica(sys.links, d, Sent(DetachedMsg, Active), c);
      case Exit(status) =>
        BroadcastReplica(sys.links, sys.server.publisher.subs, ExitedMsg(sys.server.seqNo + 1, status), c);
      case _ =>
    }
  }

  /** A replica changes exactly when a frame is delivered to it. */
  lemma StepReplica(sys: System, e: Event, sys': System, c: ClientId)
    requires Inv(sys) && Follows(sys, e, sys') && c in sys.links
    ensures var sent := Delivered(sys, e, c);
            && c in sys'.links
            && sys'.links[c].replica == if sent.Some? then Taken(sys.links[c].replica, sent.value.frame) else sys.links[c].replica
  {
    hide Taken, PoppedDown, Inv;
    if e.DeliverDown? {
      if e.client == c {
        DownReplica(sys.links[c]);
      }
    } else {
      hide Follows;
      QuietReplica(sys, e, sys', c);
    }
  }

  // ------------------------------------------------------------ the screens on their way

  /** A flush that consumed `number`, and the server it found. */
  datatype Shot = Shot(number: nat, server: SurfaceState)

  predicate IsPicture(frame: Frame) { frame.SnapshotMsg? || frame.DeltaMsg? }

  /** A frame that draws: a Snapshot or a Delta sent to an Active subscription. */
  predicate Draws(sent: Sent) { sent.mode == Active && IsPicture(sent.frame) }

  /** The replica shows what the engine showed at the flush numbered `number`. */
  ghost predicate Landed(shots: set<Shot>, r: ReplicaState, number: Option<nat>) {
    exists shot :: shot in shots && number == Some(shot.number) && ShowsAll(r, shot.server)
  }

  /** Each drawing frame on its way will make the replica show its own flush. */
  ghost predicate StreamShows(shots: set<Shot>, r: ReplicaState, down: seq<Sent>)
    decreases |down|
  {
    down == [] ||
    (var next := Taken(r, down[0].frame);
     && (Draws(down[0]) ==> Landed(shots, next, NumberOf(down[0].frame)))
     && StreamShows(shots, next, down[1..]))
  }

  lemma {:induction false} MoreShots(shots: set<Shot>, shots': set<Shot>, r: ReplicaState, down: seq<Sent>)
    requires shots <= shots' && StreamShows(shots, r, down)
    ensures StreamShows(shots', r, down)
    decreases |down|
  {
    hide ShowsAll, Taken;
    if down == [] {
    } else {
      MoreShots(shots, shots', Taken(r, down[0].frame), down[1..]);
    }
  }

  lemma {:induction false} AppendShows(shots: set<Shot>, link: Link, sent: Sent)
    requires StreamShows(shots, link.replica, link.down)
    requires Draws(sent) ==> Landed(shots, Taken(Drained(link).replica, sent.frame), NumberOf(sent.frame))
    ensures StreamShows(shots, link.replica, link.down + [sent])
    decreases |link.down|
  {
    hide Landed, Taken, Dispatched;
    var longer := link.down + [sent];
    if link.down == [] {
      assert longer[1..] == [];
    } else {
      assert longer[0] == link.down[0] && longer[1..] == link.down[1..] + [sent];
      TakenIs(link.(down := link.down[1..]), link.down[0].frame);
      AppendShows(shots, PoppedDown(link), sent);
    }
  }

  // ------------------------------------------------------------ one flush

  lemma {:induction false} PlusDrained(link: Link, sent: Sent)
    ensures Drained(Plus(link, sent)) == Dispatched(Drained(link), sent.frame)
    decreases |link.down|
  {
    hide Dispatched;
    var longer := Plus(link, sent);
    if link.down == [] {
      assert Drained(PoppedDown(longer)) == PoppedDown(longer);
      assert PoppedDown(longer) == Dispatched(link, sent.frame) by { assert longer.(down := longer.down[1..]) == link; }
    } else {
      assert longer.down[1..] == link.down[1..] + [sent];
      PoppedPlus(link, sent);
      PlusDrained(PoppedDown(link), sent);
    }
  }

  lemma PoppedPlus(link: Link, sent: Sent)
    requires link.down != []
    ensures PoppedDown(Plus(link, sent)) == Plus(PoppedDown(link), sent)
  {
    hide AfterSnapshot, AfterDelta, AfterPage, IsGap;
    assert Plus(link, sent).down[1..] == link.down[1..] + [sent];
  }

  /** A subscription with nothing pending but a bell. */
  predicate IsClear(sub: Subscription, rows: nat) {
    !sub.needsSnapshot && !sub.pending.HasState() && sub.pending.dirty.rows == rows
  }

  /** A client whose subscription has nothing pending lands on the screen. */
  lemma ClearLands(shots: set<Shot>, shot: Shot, s: SurfaceState, sub: Subscription, settled: Link)
    requires shot in shots && shot.server.screen == s.screen && shot.server.status == s.status
    requires s.screen.Valid() && Tracks(s, sub, settled) && IsClear(sub, s.screen.rows) && sub.mode == Active
    ensures Landed(shots, settled.replica, Some(shot.number))
  {
    hide ShowsAll, Tracks;
    ClearedShows(s, sub, sub, settled);
    ShowsRestamped(settled.replica, s, shot.server);
  }

  /** The frames of one emission leave a stream in which each shows its flush. */
  lemma EmissionShows(shots: set<Shot>, shot: Shot, s: SurfaceState, step: Step, e: Emission, link: Link)
    requires s.screen.Valid() && StepTracks(s, step, e, link)
    requires StreamShows(shots, link.replica, link.down)
    requires shot in shots && shot.server.screen == s.screen && shot.server.status == s.status
    requires forall f :: f in step.frames ==> NumberOf(f.frame) == Some(shot.number)
    requires step.frames != [] ==> IsClear(step.state.publisher.subs[e.client], s.screen.rows)
    requires step.state.publisher.subs[e.client].mode == e.mode
    ensures var fed := Fed(link, e, step.frames); StreamShows(shots, fed.replica, fed.down)
  {
    hide StreamShows, Tracks, LinkOk, SubOk, Landed, Drained, Dispatched, IsClear;
    if e.bell {
      AppendShows(shots, link, Sent(BellMsg, e.mode));
    }
    if step.frames != [] {
      var belled, fed := Fed(link, e, []), Fed(link, e, step.frames);
      var sent := Sent(Stripped(step.frames[0].frame, e.mode), e.mode);
      assert step.frames[0] in step.frames;
      PlusDrained(belled, sent);
      TakenIs(Drained(belled), sent.frame);
      if Draws(sent) {
        ClearLands(shots, shot, step.state, step.state.publisher.subs[e.client], Drained(fed));
      }
      AppendShows(shots, belled, sent);
    }
  }

  /** An emission that builds a frame leaves its subscription clear. */
  lemma EmissionClears(sys: System, now: nat, n: nat, state: SurfaceState)
    requires Inv(sys) && n < |EmissionsAt(sys.server, now)| && state.screen == sys.server.screen
    requires var c := EmissionsAt(sys.server, now)[n].client;
             c in LoopStart(sys.server, now).publisher.subs && c in state.publisher.subs
             && state.publisher.subs[c] == LoopStart(sys.server, now).publisher.subs[c]
    ensures var e := EmissionsAt(sys.server, now)[n];
            var step := FrameStep(state, e);
            && e.client in step.state.publisher.subs
            && step.state.publisher.subs[e.client].mode == e.mode
            && (step.frames != [] ==> IsClear(step.state.publisher.subs[e.client], state.screen.rows))
            && forall f :: f in step.frames ==> NumberOf(f.frame) == Some(state.seqNo)
  {
    hide FrameStep, FlushedOne, Emissions, LinkOk, Tracks, IsClear;
    var s := sys.server;
    var e := EmissionsAt(s, now)[n];
    EmissionOwed(s.publisher, now, s.seqNo + 1, s.styles.generation, n);
    FrameStepSubs(state, e);
    FrameStepNumbers(state, e);
    assert SubOk(s, s.publisher.subs[e.client]);
    OwedClear(e.client, s.publisher.subs[e.client], s.publisher.config, s.publisher.rows, now, s.seqNo + 1, s.styles.generation,
              FrameStep(state, e).state.publisher.subs[e.client]);
  }

  lemma OwedClear(c: ClientId, sub: Subscription, config: PublisherConfig, rows: nat, now: nat, seqNo: nat, generation: nat,
                  sub': Subscription)
    requires sub.pending.dirty.rows == rows
    requires var flushed := FlushedOne(c, sub, config, rows, now, seqNo, generation).0;
             sub' == StylesRecorded(flushed, sub'.stylesGeneration, sub'.stylesSent)
    ensures var owed := FlushedOne(c, sub, config, rows, now, seqNo, generation).1;
            owed.Some? ==> sub'.mode == owed.value.mode && (owed.value.kind.BellOnly? || IsClear(sub', rows))
  {
  }

  lemma FrameStepNumbers(s: SurfaceState, e: Emission)
    requires 1 <= s.screen.rows == |s.screen.lines|
    ensures forall f :: f in FrameStep(s, e).frames ==> NumberOf(f.frame) == Some(s.seqNo)
    ensures e.kind.BellOnly? ==> FrameStep(s, e).frames == []
  {
    hide Rendered, PackRows, LinesOf, DirtyRows;
  }

  /** The frame loop, emission by emission. */
  lemma {:induction false} LoopShows(sys: System, now: nat, modes: map<ClientId, Subscription>, n: nat, shots: set<Shot>)
    requires Inv(sys) && n <= |EmissionsAt(sys.server, now)| && SameModes(sys.server.publisher.subs, modes)
    requires Shot(sys.server.seqNo + 1, sys.server) in shots
    requires AllShow(shots, sys.links)
    ensures var s := sys.server;
            AllShow(shots, Posted(sys.links, modes, Built(LoopStart(s, now), EmissionsAt(s, now), n).frames))
    decreases n
  {
    hide StreamShows, EmissionsAt, LoopInv, FrameStep, Posted, StepTracks;
    var s := sys.server;
    var start, emissions := LoopStart(s, now), EmissionsAt(s, now);
    if n == 0 {
      PostedNothing(sys.links, modes);
    } else {
      LoopShows(sys, now, modes, n - 1, shots);
      FrameLoop(sys, now, modes, n - 1);
      TurnShows(sys, now, modes, n - 1, shots);
    }
  }

  lemma PostedNothing(links: map<ClientId, Link>, modes: map<ClientId, Subscription>)
    ensures Posted(links, modes, []) == links
  {
  }

  ghost predicate AllShow(shots: set<Shot>, links: map<ClientId, Link>) {
    forall c :: c in links ==> StreamShows(shots, links[c].replica, links[c].down)
  }

  lemma SameMode(subs: map<ClientId, Subscription>, modes: map<ClientId, Subscription>)
    requires SameModes(subs, modes)
    ensures subs.Keys == modes.Keys && forall c :: c in subs ==> c in modes && subs[c].mode == modes[c].mode
  {
  }

  lemma TurnShows(sys: System, now: nat, modes: map<ClientId, Subscription>, n: nat, shots: set<Shot>)
    requires Inv(sys) && n < |EmissionsAt(sys.server, now)| && SameModes(sys.server.publisher.subs, modes)
    requires Shot(sys.server.seqNo + 1, sys.server) in shots
    requires var s := sys.server;
             var step := Built(LoopStart(s, now), EmissionsAt(s, now), n);
             && LoopInv(sys.links, LoopStart(s, now), EmissionsAt(s, now), n, step.state, Posted(sys.links, modes, step.frames))
             && AllShow(shots, Posted(sys.links, modes, step.frames))
    ensures var s := sys.server;
            AllShow(shots, Posted(sys.links, modes, Built(LoopStart(s, now), EmissionsAt(s, now), n + 1).frames))
  {
    hide StreamShows, Tracks, SubOk, LinkOk, Drained, SameModes, FrameStep, Fed, EmissionsAt, StepTracks, Ahead, Among, Posted, FlushedState, IsClear;
    var s := sys.server;
    var start, emissions := LoopStart(s, now), EmissionsAt(s, now);
    var front := Built(start, emissions, n);
    var links := Posted(sys.links, modes, front.frames);
    var e := emissions[n];
    SameMode(s.publisher.subs, modes);
    EmissionClient(s, now, n);
    TurnTracks(sys, now, n, front.state);
    EmissionClears(sys, now, n, front.state);
    BuiltSeq(start, emissions, n);
    StepFrames(front.state, FrameStep(front.state, e), e, links[e.client]);
    PostedStep(sys.links, modes, front.frames, e, FrameStep(front.state, e).frames);
    EmissionShows(shots, Shot(s.seqNo + 1, s), front.state, FrameStep(front.state, e), e, links[e.client]);
  }

  /** A flush adds its own shot, and every frame it sends lands on it. */
  lemma FlushStreams(sys: System, now: nat, shots: set<Shot>)
    requires Inv(sys) && AllShow(shots, sys.links)
    ensures AllShow(shots + NewShots(sys, Flush(now)), AfterFlush(sys, now).links)
  {
    hide StreamShows, EmissionsAt, Built, LinkOk, Tracks, FlushedState;
    var s, emissions := sys.server, EmissionsAt(sys.server, now);
    var shots' := shots + NewShots(sys, Flush(now));
    AllMore(shots, shots', sys.links);
    if ShouldFlush(s.publisher, now) && emissions != [] {
      var built := Built(LoopStart(s, now), emissions, |emissions|);
      ClosedModes(s, now);
      LoopShows(sys, now, Closed(built).publisher.subs, |emissions|, shots');
    }
  }

  /** The shot an event takes: a flush that emits takes the screen it found. */
  ghost function NewShots(sys: System, e: Event): set<Shot> {
    if e.Flush? && ShouldFlush(sys.server.publisher, e.now) && EmissionsAt(sys.server, e.now) != []
    then {Shot(sys.server.seqNo + 1, sys.server)} else {}
  }

  lemma AllMore(shots: set<Shot>, shots': set<Shot>, links: map<ClientId, Link>)
    requires shots <= shots' && AllShow(shots, links)
    ensures AllShow(shots', links)
  {
    hide StreamShows;
    forall c | c in links
      ensures StreamShows(shots', links[c].replica, links[c].down)
    {
      MoreShots(shots, shots', links[c].replica, links[c].down);
    }
  }

  // ------------------------------------------------------------ steps and runs

  lemma StepShows(sys: System, e: Event, sys': System, shots: set<Shot>)
    requires Inv(sys) && Follows(sys, e, sys') && AllShow(shots, sys.links)
    ensures AllShow(shots + NewShots(sys, e), sys'.links)
  {
    hide StreamShows, AfterFlush, AfterFeed, AfterResize, AfterReset, AfterHistory;
    hide AfterExit, OnAttach, OnUp, Broadcast, Inv, NewShots, PoppedDown, Drained, Landed;
    if e.Flush? {
      FlushStreams(sys, e.now, shots);
    } else {
      NoShot(shots, sys, e);
      match e {
        case Connect(c, cap) => NothingShows(shots, NewReplica(cap));
        case Detach(c) =>
          if c in sys.links {
            AppendShows(shots, sys.links[c], Sent(DetachedMsg, Active));
          }
        case Exit(status) => ExitShows(sys, status, shots);
        case DeliverDown(c) => PoppedShows(shots, sys.links[c]);
        case _ =>
      }
    }
  }

  lemma NoShot(shots: set<Shot>, sys: System, e: Event)
    requires !e.Flush?
    ensures shots + NewShots(sys, e) == shots
  {
  }

  lemma NothingShows(shots: set<Shot>, r: ReplicaState)
    ensures StreamShows(shots, r, [])
  {
  }

  lemma PoppedShows(shots: set<Shot>, link: Link)
    requires link.down != [] && StreamShows(shots, link.replica, link.down)
    ensures var next := PoppedDown(link);
            && StreamShows(shots, next.replica, next.down)
            && next.replica == Taken(link.replica, link.down[0].frame)
            && (Draws(link.down[0]) ==> Landed(shots, next.replica, NumberOf(link.down[0].frame)))
  {
    hide Landed, Dispatched, Taken;
    TakenIs(link.(down := link.down[1..]), link.down[0].frame);
  }

  lemma ExitShows(sys: System, status: ExitStatus, shots: set<Shot>)
    requires AllShow(shots, sys.links)
    ensures AllShow(shots, Broadcast(sys.links, sys.server.publisher.subs, ExitedMsg(sys.server.seqNo + 1, status)))
  {
    hide StreamShows;
    var subs := sys.server.publisher.subs;
    forall c | c in sys.links && c in subs
      ensures StreamShows(shots, sys.links[c].replica, sys.links[c].down + [Sent(ExitedMsg(sys.server.seqNo + 1, status), subs[c].mode)])
    {
      AppendShows(shots, sys.links[c], Sent(ExitedMsg(sys.server.seqNo + 1, status), subs[c].mode));
    }
  }

  /** The shots of the first `k` events of a run. */
  ghost function Shots(states: seq<System>, events: seq<Event>, k: nat): set<Shot>
    requires k <= |events| < |states|
  {
    if k == 0 then {} else Shots(states, events, k - 1) + NewShots(states[k - 1], events[k - 1])
  }

  lemma {:induction false} RunShows(states: seq<System>, events: seq<Event>, k: nat)
    requires IsRun(states, events) && k <= |events|
    ensures AllShow(Shots(states, events, k), states[k].links)
  {
    hide StreamShows, Follows, NewShots, Inv;
    if k == 0 {
    } else {
      RunShows(states, events, k - 1);
      RunInv(states, events, k - 1);
      assert Follows(states[k - 1], events[k - 1], states[k]);
      StepShows(states[k - 1], events[k - 1], states[k], Shots(states, events, k - 1));
    }
  }

  /** Event `f` is the flush that consumed `number`. */
  ghost predicate IsFlushNumbered(states: seq<System>, events: seq<Event>, f: nat, number: nat)
    requires f < |events| < |states|
  {
    events[f].Flush? && states[f].server.seqNo < number == states[f + 1].server.seqNo
  }

  lemma ShotIsFlush(sys: System, e: Event, sys': System, shot: Shot)
    requires Inv(sys) && Follows(sys, e, sys') && shot in NewShots(sys, e)
    ensures e.Flush? && shot.server == sys.server && sys.server.seqNo < shot.number == sys'.server.seqNo
  {
    hide Flushed, EmissionsAt, LinkOk, Tracks;
    FlushNumbers(sys.server, e.now);
  }

  lemma {:induction false} ShotsAreFlushes(states: seq<System>, events: seq<Event>, k: nat, shot: Shot)
    requires IsRun(states, events) && k <= |events| && shot in Shots(states, events, k)
    ensures exists f :: 0 <= f < k && IsFlushNumbered(states, events, f, shot.number) && states[f].server == shot.server
  {
    hide Follows, Inv, NewShots;
    if k == 0 {
    } else if shot in Shots(states, events, k - 1) {
      ShotsAreFlushes(states, events, k - 1, shot);
    } else {
      RunInv(states, events, k - 1);
      assert Follows(states[k - 1], events[k - 1], states[k]);
      ShotIsFlush(states[k - 1], events[k - 1], states[k], shot);
      assert IsFlushNumbered(states, events, k - 1, shot.number);
    }
  }

  /** No two flushes of a run have the same number. */
  lemma OneFlushPerNumber(states: seq<System>, events: seq<Event>, f: nat, g: nat, number: nat)
    requires IsRun(states, events) && f < |events| && g < |events|
    requires IsFlushNumbered(states, events, f, number) && IsFlushNumbered(states, events, g, number)
    ensures f == g
  {
    NumbersRise(states, events, f + 1, g);
    NumbersRise(states, events, g + 1, f);
  }

  lemma {:induction false} NumbersRise(states: seq<System>, events: seq<Event>, j: nat, k: nat)
    requires IsRun(states, events) && k < |states|
    ensures j <= k ==> states[j].server.seqNo <= states[k].server.seqNo
    decreases k
  {
    hide Follows, Inv;
    if j >= k {
    } else {
      NumbersRise(states, events, j, k - 1);
      RunInv(states, events, k - 1);
      assert Follows(states[k - 1], events[k - 1], states[k]);
      NumberRises(states[k - 1], events[k - 1], states[k]);
    }
  }

  lemma NumberRises(sys: System, e: Event, sys': System)
    requires Inv(sys) && Follows(sys, e, sys')
    ensures sys.server.seqNo <= sys'.server.seqNo
  {
    hide Inv, Next, Enabled;
    ServerSeq(sys, e);
  }

  // ------------------------------------------------------------ the result

  /** The screen, its title and line counters; the exit status aside. */
  ghost predicate ShowsScreen(r: ReplicaState, s: SurfaceState) {
    ShowsAll(r.(exited := s.status), s)
  }

  lemma OtherFrameShows(r: ReplicaState, frame: Frame, s: SurfaceState)
    requires ShowsScreen(r, s) && !IsPicture(frame) && !frame.HistoryMsg?
    ensures ShowsScreen(Taken(r, frame), s)
  {
  }

  lemma NoPageOnItsWay(link: Link)
    requires LinkOk(link) && link.down != []
    ensures !link.down[0].frame.HistoryMsg?
  {
  }

  /** A step that delivers no picture to `c` leaves what it shows. */
  lemma OtherStep(sys: System, e: Event, sys': System, c: ClientId, s: SurfaceState)
    requires Inv(sys) && Follows(sys, e, sys') && c in sys.links && ShowsScreen(sys.links[c].replica, s)
    requires Delivered(sys, e, c).Some? ==> !IsPicture(Delivered(sys, e, c).value.frame)
    ensures c in sys'.links && ShowsScreen(sys'.links[c].replica, s)
  {
    hide Next, Enabled, ShowsScreen, Taken, Tracks, LinkOk, ServerOk;
    StepReplica(sys, e, sys', c);
    var sent := Delivered(sys, e, c);
    if sent.Some? {
      NoPageOnItsWay(sys.links[c]);
      OtherFrameShows(sys.links[c].replica, sent.value.frame, s);
    }
  }

  /** The moment a drawing frame is applied, the screen of its flush shows. */
  lemma FirstShown(states: seq<System>, events: seq<Event>, c: ClientId, j: nat) returns (f: nat)
    requires IsRun(states, events) && j < |events|
    requires var sent := Delivered(states[j], events[j], c); sent.Some? && Draws(sent.value)
    ensures c in states[j + 1].links && f < j
    ensures var number := NumberOf(Delivered(states[j], events[j], c).value.frame);
            number.Some? && IsFlushNumbered(states, events, f, number.value)
    ensures ShowsScreen(states[j + 1].links[c].replica, states[f].server)
  {
    hide Follows, Inv, IsFlushNumbered, StreamShows, ShowsAll, Taken, ShowsScreen;
    RunInv(states, events, j);
    RunShows(states, events, j);
    assert Follows(states[j], events[j], states[j + 1]);
    StepReplica(states[j], events[j], states[j + 1], c);
    var shots, link := Shots(states, events, j), states[j].links[c];
    PoppedShows(shots, link);
    var shot := LandedShot(shots, Taken(link.replica, link.down[0].frame), NumberOf(link.down[0].frame));
    ShotsAreFlushes(states, events, j, shot);
    f :| 0 <= f < j && IsFlushNumbered(states, events, f, shot.number) && states[f].server == shot.server;
  }

  lemma LandedShot(shots: set<Shot>, r: ReplicaState, number: Option<nat>) returns (shot: Shot)
    requires Landed(shots, r, number)
    ensures shot in shots && number == Some(shot.number) && ShowsScreen(r, shot.server)
  {
    shot :| shot in shots && number == Some(shot.number) && ShowsAll(r, shot.server);
  }

  /** No Snapshot or Delta is delivered to `c` in the events `[from, to)`. */
  ghost predicate NoPicture(states: seq<System>, events: seq<Event>, c: ClientId, from: nat, to: nat)
    requires to <= |events| <= |states|
  {
    forall i :: from <= i < to && Delivered(states[i], events[i], c).Some? ==>
      !IsPicture(Delivered(states[i], events[i], c).value.frame)
  }

  /** ... and until the next Snapshot or Delta nothing else changes it. */
  lemma {:induction false} StillShown(states: seq<System>, events: seq<Event>, c: ClientId, j: nat, k: nat) returns (f: nat)
    requires IsRun(states, events) && j < k <= |events|
    requires var sent := Delivered(states[j], events[j], c); sent.Some? && Draws(sent.value)
    requires NoPicture(states, events, c, j + 1, k)
    ensures c in states[k].links && f < j
    ensures var number := NumberOf(Delivered(states[j], events[j], c).value.frame);
            number.Some? && IsFlushNumbered(states, events, f, number.value)
    ensures ShowsScreen(states[k].links[c].replica, states[f].server)
  {
    hide Follows, Inv, ShowsScreen, Delivered, IsFlushNumbered;
    RunInv(states, events, k - 1);
    assert Follows(states[k - 1], events[k - 1], states[k]);
    if k == j + 1 {
      f := FirstShown(states, events, c, j);
    } else {
      f := StillShown(states, events, c, j, k - 1);
      OtherStep(states[k - 1], events[k - 1], states[k], c, states[f].server);
    }
  }

  /** No torn picture: at every moment of every run, channels full or empty, an
      Active client that has applied a Snapshot or a Delta shows exactly the
      screen the engine had at that frame's own flush, whatever else has arrived
      since, until its next Snapshot or Delta. */
  lemma NoTornPicture(states: seq<System>, events: seq<Event>, c: ClientId, j: nat, k: nat)
    requires IsRun(states, events) && j < k <= |events|
    requires var sent := Delivered(states[j], events[j], c); sent.Some? && Draws(sent.value)
    requires NoPicture(states, events, c, j + 1, k)
    ensures c in states[k].links
    ensures var number := NumberOf(Delivered(states[j], events[j], c).value.frame);
            number.Some? && exists f :: 0 <= f < j && IsFlushNumbered(states, events, f, number.value)
                                        && ShowsScreen(states[k].links[c].replica, states[f].server)
  {
    hide Follows, ShowsScreen, Delivered, IsFlushNumbered;
    var f := StillShown(states, events, c, j, k);
  }

  /** Lines by id: a replica that shows a screen reads each visible line's id as
      the engine's line with that id, and no line past the grid. */
  lemma ShownLines(r: ReplicaState, s: SurfaceState, id: nat)
    requires ShowsScreen(r, s) && s.screen.IsGrid() && id >= s.screen.FirstVisible()
    ensures var line := LineAt(r, id);
            if id < s.screen.FirstVisible() + s.screen.rows
            then line.Some? && RowShows(r.styles, line.value, LineWithId(s.screen, id))
            else line == None
  {
    hide RowShows;
  }

  /** The Snapshots delivered to a client since it connected. */
  ghost function SnapshotsTaken(states: seq<System>, events: seq<Event>, c: ClientId, k: nat): nat
    requires k <= |events| < |states|
  {
    if k == 0 then 0
    else
      var sent := Delivered(states[k - 1], events[k - 1], c);
      SnapshotsTaken(states, events, c, k - 1) + if sent.Some? && sent.value.frame.SnapshotMsg? then 1 else 0
  }

  /** A replica counts every Snapshot it takes. */
  lemma {:induction false} SnapshotsCounted(states: seq<System>, events: seq<Event>, c: ClientId, k: nat)
    requires IsRun(states, events) && k <= |events|
    ensures if c in states[k].links then states[k].links[c].replica.counters.snapshots == SnapshotsTaken(states, events, c, k)
            else SnapshotsTaken(states, events, c, k) == 0
  {
    hide Follows, Inv, Taken, Delivered;
    if k == 0 {
      NothingAtFirst(states[0], c);
    } else {
      SnapshotsCounted(states, events, c, k - 1);
      RunInv(states, events, k - 1);
      assert Follows(states[k - 1], events[k - 1], states[k]);
      if c in states[k - 1].links {
        StepReplica(states[k - 1], events[k - 1], states[k], c);
        var sent := Delivered(states[k - 1], events[k - 1], c);
        if sent.Some? {
          TakenCount(states[k - 1].links[c].replica, sent.value.frame);
        }
      } else {
        NewReplicaCount(states[k - 1], events[k - 1], states[k], c);
      }
    }
  }

  lemma NothingAtFirst(sys: System, c: ClientId)
    requires Initial(sys)
    ensures c !in sys.links
  {
  }

  lemma TakenCount(r: ReplicaState, frame: Frame)
    ensures Taken(r, frame).counters.snapshots == r.counters.snapshots + if frame.SnapshotMsg? then 1 else 0
  {
    hide WriteRows, FitRows, ClippedRows;
  }

  lemma NewReplicaCount(sys: System, e: Event, sys': System, c: ClientId)
    requires Inv(sys) && Follows(sys, e, sys') && c !in sys.links
    ensures c in sys'.links ==> sys'.links[c].replica.counters.snapshots == 0
    ensures Delivered(sys, e, c).None?
  {
    hide Flushed, HandedAfter, Posted, AfterFeed, AfterResize, AfterReset, AfterHistory, AfterExit;
    hide OnAttach, OnUp, WithSub, PoppedDown, LinkOk, Tracks, ServerOk;
    if e.Flush? {
      PostedKeeps(sys.links, Flushed(sys.server, e.now).0.publisher.subs, Flushed(sys.server, e.now).1);
    }
  }
}
