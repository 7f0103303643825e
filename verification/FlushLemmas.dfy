/** A flush, emission by emission, keeps every client tracked. */
module FlushLemmas {
  import opened Wire
  import opened StyleTables
  import opened Engine
  import opened Sorting
  import opened Publishing
  import opened Surfaces
  import opened Replicas
  import opened Systems
  import opened Invariants
  import opened FrameLemmas

  // ------------------------------------------------------------ one client

  /** A link with one more frame on its way. */
  function Plus(link: Link, sent: Sent): Link { link.(down := link.down + [sent]) }

  /** A link with the frames of one emission on their way. */
  function Fed(link: Link, e: Emission, frames: seq<ClientFrame>): Link {
    var belled := if e.bell then Plus(link, Sent(BellMsg, e.mode)) else link;
    if frames == [] then belled else Plus(belled, Sent(Stripped(frames[0].frame, e.mode), e.mode))
  }

  lemma PlusOk(link: Link, sent: Sent)
    requires LinkOk(link) && Fits(Drained(link).replica, sent)
    ensures LinkOk(Plus(link, sent)) && Drained(Plus(link, sent)) == Dispatched(Drained(link), sent.frame)
  {
    Append(link, sent);
  }

  lemma BellOk(link: Link, e: Emission)
    requires LinkOk(link)
    ensures LinkOk(Fed(link, e, [])) && Drained(Fed(link, e, [])) == Drained(link)
  {
    if e.bell {
      PlusOk(link, Sent(BellMsg, e.mode));
    }
  }

  /** One emission turned into frames: its client is tracked, no other subscription moved. */
  ghost predicate StepTracks(s: SurfaceState, step: Step, e: Emission, link: Link) {
    && Ahead(s, step.state) && |step.frames| <= 1
    && (step.frames != [] ==> step.frames[0].client == e.client)
    && e.client in step.state.publisher.subs
    && var sub := step.state.publisher.subs[e.client];
       var fed := Fed(link, e, step.frames);
       && step.state.publisher == s.publisher.(subs := s.publisher.subs[e.client := sub])
       && SubOk(step.state, sub) && LinkOk(fed) && Tracks(step.state, sub, Drained(fed))
  }

  /** A frame that its client acks, noted by the server, leaves the client tracked. */
  lemma FrameTracks(s: SurfaceState, s': SurfaceState, sub: Subscription, e: Emission, frame: Frame, link: Link, overflowed: bool)
    requires Ahead(s, s') && s'.publisher == s.publisher
    requires e.client in s.publisher.subs && s.publisher.subs[e.client] == sub && e.mode == sub.mode
    requires SubOk(s, sub) && LinkOk(link) && sub.lastSent == s.seqNo && !sub.needsSnapshot
    requires var settled, stripped := Drained(link), Stripped(frame, sub.mode);
             var arrived := Dispatched(settled, stripped);
             && Fits(settled.replica, Sent(stripped, sub.mode))
             && arrived.up == settled.up + [AckMsg(s.seqNo)]
             && Synced(s', StylesRecorded(sub, s'.styles.generation, |s'.styles.table|), arrived.replica)
    ensures StepTracks(s, Step(Noted(s', e.client), [ClientFrame(e.client, frame)], overflowed), e, link)
  {
    hide Synced, LinkOk, Stripped, Fits, Dispatched;
    BellOk(link, e);
    var belled, sent := Fed(link, e, []), Sent(Stripped(frame, sub.mode), sub.mode);
    PlusOk(belled, sent);
    var noted, state := StylesRecorded(sub, s'.styles.generation, |s'.styles.table|), Noted(s', e.client);
    SyncedUnpublished(s', state, noted, Dispatched(Drained(link), sent.frame).replica);
  }

  /** The client side of an emission that ends in a Snapshot. */
  lemma SnapshotStepTracks(s: SurfaceState, sub: Subscription, e: Emission, link: Link, overflowed: bool)
    requires s.screen.Valid() && ValidTable(s.styles.table)
    requires e.client in s.publisher.subs && s.publisher.subs[e.client] == sub
    requires sub.lastSent == s.seqNo && !sub.needsSnapshot && !sub.pending.HasState() && e.mode == sub.mode
    requires SubOk(s, sub) && LinkOk(link)
    ensures StepTracks(s, SnapshotStep(s, e.client, overflowed), e, link)
  {
    hide BuiltSnapshot, Synced, LinkOk, Ahead, Fits, StepTracks, AfterSnapshot, Drained, Noted;
    SnapshotSelfContained(s);
    SnapshotArrives(s, sub, Drained(link).replica);
    var (snap, s') := BuiltSnapshot(s);
    FrameTracks(s, s', sub, e, SnapshotMsg(snap), link, overflowed);
  }

  lemma AheadTransitive(a: SurfaceState, b: SurfaceState, c: SurfaceState)
    requires Ahead(a, b) && Ahead(b, c)
    ensures Ahead(a, c)
  {
  }

  /** The client side of a Delta emission, whether or not it ends in a Snapshot. */
  lemma DeltaStepTracks(s: SurfaceState, sub0: Subscription, e: Emission, link: Link)
    requires s.screen.Valid() && ValidTable(s.styles.table) && !s.styles.overflowed
    requires SubOk(s, sub0) && Synced(s, sub0, Drained(link).replica)
    requires e.client in s.publisher.subs && !sub0.needsSnapshot
    requires s.publisher.subs[e.client] == DeltaSent(sub0, s.screen.rows, s.seqNo)
    requires e.kind == DeltaOf(sub0) && e.since == sub0.lastSent && e.mode == sub0.mode
    requires LinkOk(link)
    ensures StepTracks(s, DeltaStep(s, e), e, link)
  {
    hide BuiltDelta, BuiltSnapshot, Synced, LinkOk, Ahead, Covers, StepTracks, AfterDelta, Drained, Noted;
    var sub1 := DeltaSent(sub0, s.screen.rows, s.seqNo);
    DeltaBuilt(s, e.since, e.kind);
    var (d, s') := BuiltDelta(s, e.since, e.kind);
    if d.Some? {
      DeltaArrives(s, sub0, Drained(link).replica);
      FrameTracks(s, s', sub1, e, DeltaMsg(d.value), link, false);
    } else {
      AheadFacts(s, s');
      SnapshotStepTracks(s', sub1, e, link, true);
      StepFromAhead(s, s', SnapshotStep(s', e.client, true), e, link);
    }
  }

  lemma AheadFacts(s: SurfaceState, s': SurfaceState)
    requires Ahead(s, s')
    ensures s'.screen == s.screen && s'.seqNo == s.seqNo
    ensures ValidTable(s'.styles.table) && !s'.styles.overflowed && s.styles.generation <= s'.styles.generation
  {
  }

  lemma StepFromAhead(s: SurfaceState, s': SurfaceState, step: Step, e: Emission, link: Link)
    requires Ahead(s, s') && s'.publisher == s.publisher && StepTracks(s', step, e, link)
    ensures StepTracks(s, step, e, link)
  {
    hide SubOk, LinkOk, Tracks, Fed;
    AheadTransitive(s, s', step.state);
  }

  // ------------------------------------------------------------ the flush

  /** A subscription the flush says nothing to stays tracked. */
  lemma UnflushedTracks(s: SurfaceState, s': SurfaceState, c: ClientId, sub0: Subscription, now: nat, seqNo: nat, settled: Link)
    requires SubOk(s, sub0) && Tracks(s, sub0, settled) && Ahead(s, s')
    requires var owed := FlushedOne(c, sub0, s.publisher.config, s.screen.rows, now, seqNo, s.styles.generation).1;
             owed.None? || owed.value.kind.BellOnly?
    ensures var sub1 := FlushedOne(c, sub0, s.publisher.config, s.screen.rows, now, seqNo, s.styles.generation).0;
            Tracks(s', sub1, settled) && !sub1.needsSnapshot && sub1.lastSent == sub0.lastSent && sub1.mode == sub0.mode
            && SubOk(s, sub1) && SubOk(s', sub1)
  {
    hide RowShows;
    SyncedStable(s, s', sub0, settled.replica);
  }

  lemma BellStepTracks(s: SurfaceState, sub: Subscription, e: Emission, link: Link)
    requires e.client in s.publisher.subs && s.publisher.subs[e.client] == sub
    requires ValidTable(s.styles.table) && !s.styles.overflowed
    requires SubOk(s, sub) && LinkOk(link) && Tracks(s, sub, Drained(link))
    ensures StepTracks(s, Step(s, [], false), e, link)
  {
    hide Synced, LinkOk, Fed;
    AheadRefl(s);
    BellOk(link, e);
    assert s.publisher.subs[e.client := sub] == s.publisher.subs;
  }

  /** One emission of a flush leaves its client tracked. */
  lemma EmissionTracks(s0: SurfaceState, s: SurfaceState, sub0: Subscription, e: Emission, now: nat, link: Link)
    requires s0.screen.Valid() && ValidTable(s.styles.table) && !s.styles.overflowed
    requires Ahead(s0, s) && SubOk(s0, sub0) && Tracks(s0, sub0, Drained(link)) && LinkOk(link)
    requires e.client in s.publisher.subs
    requires (s.publisher.subs[e.client], Some(e))
               == FlushedOne(e.client, sub0, s0.publisher.config, s0.screen.rows, now, s0.seqNo, s0.styles.generation)
    ensures StepTracks(s, FrameStep(s, e), e, link)
  {
    hide Synced, LinkOk, StepTracks, SnapshotStep, DeltaStep, Drained;
    var sub1 := s.publisher.subs[e.client];
    match e.kind
    case BellOnly =>
      UnflushedTracks(s0, s, e.client, sub0, now, s0.seqNo, Drained(link));
      BellStepTracks(s, sub1, e, link);
    case SnapshotKind =>
      SnapshotStepTracks(s, sub1, e, link, false);
    case DeltaKind(_, _, _, _, _) =>
      SyncedStable(s0, s, sub0, Drained(link).replica);
      DeltaStepTracks(s, sub0, e, link);
  }

  /** Tracking does not look at the publisher or the sequence number. */
  lemma TracksRestamped(s: SurfaceState, s': SurfaceState, sub: Subscription, settled: Link)
    requires Tracks(s, sub, settled)
    requires s' == s.(publisher := s'.publisher, seqNo := s'.seqNo)
    ensures Tracks(s', sub, settled)
  {
    hide RowsSynced, StylesSynced;
  }

  /** The server at the start of a flush's frame loop. */
  ghost function LoopStart(s: SurfaceState, now: nat): SurfaceState {
    Committed(s, now).(seqNo := s.seqNo + 1)
  }

  ghost predicate Among(emissions: seq<Emission>, n: nat, c: ClientId)
    requires n <= |emissions|
  {
    exists k :: 0 <= k < n && emissions[k].client == c
  }

  /** After `n` emissions: the clients served are tracked, the others are as the
      publisher left them and have received nothing. */
  ghost predicate LoopInv(before: map<ClientId, Link>, start: SurfaceState, emissions: seq<Emission>, n: nat,
                          s: SurfaceState, links: map<ClientId, Link>)
    requires n <= |emissions|
  {
    var subs := s.publisher.subs;
    && Ahead(start, s)
    && s.publisher == start.publisher.(subs := subs) && subs.Keys == start.publisher.subs.Keys <= links.Keys
    && links.Keys == before.Keys
    && (forall c :: c in links && !Among(emissions, n, c) ==> links[c] == before[c])
    && (forall c :: c in subs && !Among(emissions, n, c) ==> subs[c] == start.publisher.subs[c])
    && (forall c :: c in subs && Among(emissions, n, c) ==>
          SubOk(s, subs[c]) && LinkOk(links[c]) && Tracks(s, subs[c], Drained(links[c])))
  }

  lemma PostedOne(links: map<ClientId, Link>, modes: map<ClientId, Subscription>, frames: seq<ClientFrame>, x: ClientFrame)
    ensures var mode := ModeIn(modes, x.client);
            Posted(links, modes, frames + [x]) == Pushed(Posted(links, modes, frames), x.client, Sent(Stripped(x.frame, mode), mode))
  {
    assert (frames + [x])[..|frames|] == frames;
  }

  /** The frames of one emission reach exactly its client's channel. */
  lemma PostedStep(links: map<ClientId, Link>, modes: map<ClientId, Subscription>, frames: seq<ClientFrame>,
                   e: Emission, more: seq<ClientFrame>)
    requires e.client in Posted(links, modes, frames) && e.client in modes && e.mode == modes[e.client].mode
    requires |more| <= 1 && (more != [] ==> more[0].client == e.client)
    ensures var posted := Posted(links, modes, frames);
            Posted(links, modes, frames + BellsOf(e) + more) == posted[e.client := Fed(posted[e.client], e, more)]
  {
    var posted := Posted(links, modes, frames);
    if e.bell {
      PostedOne(links, modes, frames, ClientFrame(e.client, BellMsg));
    } else {
      assert frames + BellsOf(e) == frames;
    }
    if more != [] {
      assert more == [more[0]];
      PostedOne(links, modes, frames + BellsOf(e), more[0]);
    } else {
      assert frames + BellsOf(e) + more == frames + BellsOf(e);
    }
  }

  lemma TracksStable(s: SurfaceState, s': SurfaceState, sub: Subscription, settled: Link)
    requires Ahead(s, s') && SubOk(s, sub) && Tracks(s, sub, settled)
    ensures SubOk(s', sub) && Tracks(s', sub, settled)
  {
    hide RowsSynced, StylesSynced, ScalarsSynced;
    if !sub.needsSnapshot {
      SyncedStable(s, s', sub, settled.replica);
    }
  }

  /** One turn of the frame loop. */
  lemma LoopStep(before: map<ClientId, Link>, start: SurfaceState, emissions: seq<Emission>, n: nat,
                 s: SurfaceState, links: map<ClientId, Link>, step: Step)
    requires n < |emissions|
    requires LoopInv(before, start, emissions, n, s, links)
    requires var e := emissions[n]; e.client in links && e.client in s.publisher.subs && StepTracks(s, step, e, links[e.client])
    ensures var e := emissions[n];
            LoopInv(before, start, emissions, n + 1, step.state, links[e.client := Fed(links[e.client], e, step.frames)])
  {
    hide Tracks, SubOk, LinkOk, Ahead, Fed, Drained, Among;
    var e := emissions[n];
    var s', links' := step.state, links[e.client := Fed(links[e.client], e, step.frames)];
    AmongNext(emissions, n);
    AheadTransitive(start, s, s');
    forall c | c in s.publisher.subs && Among(emissions, n + 1, c)
      ensures SubOk(s', s'.publisher.subs[c]) && LinkOk(links'[c]) && Tracks(s', s'.publisher.subs[c], Drained(links'[c]))
    {
      if c != e.client {
        TracksStable(s, s', s.publisher.subs[c], Drained(links[c]));
      }
    }
  }

  lemma AmongNext(emissions: seq<Emission>, n: nat)
    requires n < |emissions|
    ensures forall c :: Among(emissions, n + 1, c) <==> Among(emissions, n, c) || c == emissions[n].client
  {
    forall c
      ensures Among(emissions, n + 1, c) <==> Among(emissions, n, c) || c == emissions[n].client
    {
      if Among(emissions, n, c) {
        var k :| 0 <= k < n && emissions[k].client == c;
        assert k < n + 1;
      }
    }
  }

  lemma EmissionMode(c: ClientId, sub: Subscription, config: PublisherConfig, rows: nat, now: nat, seqNo: nat, generation: nat)
    ensures var owed := FlushedOne(c, sub, config, rows, now, seqNo, generation).1;
            owed.Some? ==> owed.value.client == c && owed.value.mode == sub.mode
  {
  }

  /** What a flush emits for a client is what its subscription was owed. */
  lemma EmissionOwed(p: PublisherState, now: nat, seqNo: nat, generation: nat, k: nat)
    requires k < |Emissions(p, now, seqNo, generation)|
    ensures var e := Emissions(p, now, seqNo, generation)[k];
            e.client in p.subs && FlushedSub(p, e.client, now, seqNo, generation).1 == Some(e) && e.mode == p.subs[e.client].mode
  {
    hide FlushedOne, Collected;
    var owed, ids := Owed(p, now, seqNo, generation), SortedIds(p.subs.Keys);
    CollectedMembers(owed, ids, |ids|);
    var e := Emissions(p, now, seqNo, generation)[k];
    assert e in Collected(owed, ids, |ids|);
    assert owed[e.client] == Some(e);
    EmissionMode(e.client, p.subs[e.client], p.config, p.rows, now, seqNo, generation);
  }

  /** A client that is owed something is emitted to. */
  lemma OwedEmission(p: PublisherState, now: nat, seqNo: nat, generation: nat, c: ClientId)
    requires c in p.subs && FlushedSub(p, c, now, seqNo, generation).1.Some?
    ensures var emissions := Emissions(p, now, seqNo, generation); Among(emissions, |emissions|, c)
  {
    hide FlushedOne, Collected;
    var owed, ids := Owed(p, now, seqNo, generation), SortedIds(p.subs.Keys);
    CollectedMembers(owed, ids, |ids|);
    assert ids[..|ids|] == ids;
    assert owed[c].value in Emissions(p, now, seqNo, generation);
  }

  lemma EmissionsSorted(p: PublisherState, now: nat, seqNo: nat, generation: nat)
    ensures SortedBy(Emissions(p, now, seqNo, generation), ByClient)
  {
    var ids := SortedIds(p.subs.Keys);
    CollectedAscend(Owed(p, now, seqNo, generation), ids, |ids|);
  }

  /** The same subscriptions in the same modes, as the transport strips by. */
  ghost predicate SameModes(subs: map<ClientId, Subscription>, subs': map<ClientId, Subscription>) {
    subs.Keys == subs'.Keys && forall c :: c in subs ==> subs[c].mode == subs'[c].mode
  }

  /** The same subscriptions but for their style cursors. */
  ghost predicate SameButStyles(subs: map<ClientId, Subscription>, subs': map<ClientId, Subscription>) {
    && subs.Keys == subs'.Keys
    && forall c :: c in subs ==> subs'[c] == StylesRecorded(subs[c], subs'[c].stylesGeneration, subs'[c].stylesSent)
  }

  lemma {:induction false} FrameLoop(sys: System, now: nat, modes: map<ClientId, Subscription>, n: nat)
    requires Inv(sys) && n <= |EmissionsAt(sys.server, now)|
    requires SameModes(sys.server.publisher.subs, modes)
    ensures var s := sys.server;
            var step := Built(LoopStart(s, now), EmissionsAt(s, now), n);
            LoopInv(sys.links, LoopStart(s, now), EmissionsAt(s, now), n, step.state, Posted(sys.links, modes, step.frames))
  {
    hide LoopInv, EmissionsAt, Built, Posted, FlushedState, Synced, Drained, LinkOk;
    if n == 0 {
      LoopBegins(sys, now, modes);
    } else {
      FrameLoop(sys, now, modes, n - 1);
      FrameTurn(sys, now, modes, n - 1);
    }
  }

  lemma LoopBegins(sys: System, now: nat, modes: map<ClientId, Subscription>)
    requires Inv(sys)
    ensures var start, emissions := LoopStart(sys.server, now), EmissionsAt(sys.server, now);
            var step := Built(start, emissions, 0);
            LoopInv(sys.links, start, emissions, 0, step.state, Posted(sys.links, modes, step.frames))
  {
    hide Tracks, SubOk, LinkOk, Drained, FlushedOne, EmissionsAt;
  }

  /** The next emission finds its client as the flush began, and leaves it tracked. */
  lemma TurnTracks(sys: System, now: nat, n: nat, state: SurfaceState)
    requires Inv(sys) && n < |EmissionsAt(sys.server, now)| && Ahead(LoopStart(sys.server, now), state)
    requires var c := EmissionsAt(sys.server, now)[n].client;
             c in LoopStart(sys.server, now).publisher.subs && c in state.publisher.subs
             && state.publisher.subs[c] == LoopStart(sys.server, now).publisher.subs[c]
    ensures var e := EmissionsAt(sys.server, now)[n];
            && e.client in sys.server.publisher.subs && e.mode == sys.server.publisher.subs[e.client].mode
            && StepTracks(state, FrameStep(state, e), e, sys.links[e.client])
  {
    hide Tracks, Drained, FrameStep, Fed, FlushedOne, LinkOk, StepTracks, Emissions;
    var s, start := sys.server, LoopStart(sys.server, now);
    var e := EmissionsAt(s, now)[n];
    EmissionOwed(s.publisher, now, s.seqNo + 1, s.styles.generation, n);
    var sub0 := s.publisher.subs[e.client];
    TracksRestamped(s, start, sub0, Drained(sys.links[e.client]));
    EmissionTracks(start, state, sub0, e, now, sys.links[e.client]);
  }

  lemma EmissionClient(s: SurfaceState, now: nat, n: nat)
    requires n < |EmissionsAt(s, now)|
    ensures var c := EmissionsAt(s, now)[n].client;
            c in s.publisher.subs && c in LoopStart(s, now).publisher.subs && !Among(EmissionsAt(s, now), n, c)
  {
    hide FlushedOne, Emissions;
    EmissionsSorted(s.publisher, now, s.seqNo + 1, s.styles.generation);
    EmissionOwed(s.publisher, now, s.seqNo + 1, s.styles.generation, n);
  }

  lemma FrameTurn(sys: System, now: nat, modes: map<ClientId, Subscription>, n: nat)
    requires Inv(sys) && n < |EmissionsAt(sys.server, now)|
    requires SameModes(sys.server.publisher.subs, modes)
    requires var s := sys.server;
             var step := Built(LoopStart(s, now), EmissionsAt(s, now), n);
             LoopInv(sys.links, LoopStart(s, now), EmissionsAt(s, now), n, step.state, Posted(sys.links, modes, step.frames))
    ensures var s := sys.server;
            var step := Built(LoopStart(s, now), EmissionsAt(s, now), n + 1);
            LoopInv(sys.links, LoopStart(s, now), EmissionsAt(s, now), n + 1, step.state, Posted(sys.links, modes, step.frames))
  {
    hide Tracks, SubOk, LinkOk, FrameStep, Fed, EmissionsAt, StepTracks, Ahead, Among, Posted, FlushedState;
    var s := sys.server;
    var start, emissions := LoopStart(s, now), EmissionsAt(s, now);
    var front := Built(start, emissions, n);
    var links := Posted(sys.links, modes, front.frames);
    var e := emissions[n];
    EmissionClient(s, now, n);
    TurnTracks(sys, now, n, front.state);
    StepFrames(front.state, FrameStep(front.state, e), e, links[e.client]);
    PostedStep(sys.links, modes, front.frames, e, FrameStep(front.state, e).frames);
    LoopStep(sys.links, start, emissions, n, front.state, links, FrameStep(front.state, e));
  }

  lemma StepFrames(s: SurfaceState, step: Step, e: Emission, link: Link)
    requires StepTracks(s, step, e, link)
    ensures |step.frames| <= 1 && (step.frames != [] ==> step.frames[0].client == e.client)
  {
  }

  /** The server as the publisher leaves it, before any frame is built. */
  ghost predicate Committing(s: SurfaceState, start: SurfaceState, now: nat) {
    start == Committed(s, now) || start == LoopStart(s, now)
  }

  lemma CommittingSubs(s: SurfaceState, start: SurfaceState, now: nat, c: ClientId)
    requires Committing(s, start, now) && c in s.publisher.subs
    ensures start == s.(publisher := start.publisher, seqNo := start.seqNo) && s.seqNo <= start.seqNo
    ensures c in start.publisher.subs && start.publisher.config == s.publisher.config
    ensures start.publisher.subs[c] == FlushedSub(s.publisher, c, now, s.seqNo + 1, s.styles.generation).0
  {
    hide FlushedOne;
  }

  lemma SubOkRestamped(s: SurfaceState, s': SurfaceState, sub: Subscription)
    requires SubOk(s, sub) && s' == s.(publisher := s'.publisher, seqNo := s'.seqNo) && s.seqNo <= s'.seqNo
    ensures SubOk(s', sub)
  {
  }

  lemma UnservedTracks(sys: System, now: nat, c: ClientId, start: SurfaceState, s': SurfaceState)
    requires Inv(sys) && Committing(sys.server, start, now) && Ahead(start, s') && c in sys.server.publisher.subs
    requires var emissions := EmissionsAt(sys.server, now); !Among(emissions, |emissions|, c)
    ensures c in start.publisher.subs && SubOk(s', start.publisher.subs[c])
    ensures Tracks(s', start.publisher.subs[c], Drained(sys.links[c]))
  {
    hide Drained, LinkOk, Tracks, SubOk, FlushedOne, Emissions, Ahead;
    var s := sys.server;
    var settled := Drained(sys.links[c]);
    if FlushedSub(s.publisher, c, now, s.seqNo + 1, s.styles.generation).1.Some? {
      OwedEmission(s.publisher, now, s.seqNo + 1, s.styles.generation, c);
    }
    TracksRestamped(s, start, s.publisher.subs[c], settled);
    assert SubOk(s, s.publisher.subs[c]);
    SubOkRestamped(s, start, s.publisher.subs[c]);
    CommittingSubs(s, start, now, c);
    UnflushedTracks(start, s', c, s.publisher.subs[c], now, s.seqNo + 1, settled);
  }

  lemma NotAmong(p: PublisherState, now: nat, seqNo: nat, generation: nat, c: ClientId)
    requires c !in p.subs
    ensures var emissions := Emissions(p, now, seqNo, generation); !Among(emissions, |emissions|, c)
  {
    var emissions := Emissions(p, now, seqNo, generation);
    if Among(emissions, |emissions|, c) {
      var k :| 0 <= k < |emissions| && emissions[k].client == c;
      EmissionOwed(p, now, seqNo, generation, k);
    }
  }

  /** At the end of the loop every client is tracked, served or not. */
  lemma LoopEnd(sys: System, now: nat, start: SurfaceState, s': SurfaceState, links: map<ClientId, Link>, handed: map<ClientId, set<nat>>)
    requires Inv(sys) && Committing(sys.server, start, now)
    requires var emissions := EmissionsAt(sys.server, now);
             LoopInv(sys.links, start, emissions, |emissions|, s', links)
    ensures Inv(System(s', links, handed))
  {
    hide Tracks, LinkOk, Drained, FlushedOne, Emissions, SubOk, Ahead;
    var s, emissions := sys.server, EmissionsAt(sys.server, now);
    var subs := s'.publisher.subs;
    LoopEndServer(sys, now, start, s');
    forall c | c in links
      ensures LinkOk(links[c])
      ensures c in subs ==> SubOk(s', subs[c]) && Tracks(s', subs[c], Drained(links[c]))
    {
      if c !in subs {
        NotAmong(s.publisher, now, s.seqNo + 1, s.styles.generation, c);
      } else if !Among(emissions, |emissions|, c) {
        UnservedTracks(sys, now, c, start, s');
      }
    }
  }

  lemma LoopEndServer(sys: System, now: nat, start: SurfaceState, s': SurfaceState)
    requires Inv(sys) && Committing(sys.server, start, now) && Ahead(start, s')
    requires s'.publisher == start.publisher.(subs := s'.publisher.subs)
    ensures s'.screen.Valid() && ValidTable(s'.styles.table) && !s'.styles.overflowed && s'.publisher.rows == s'.screen.rows
    ensures start.publisher.subs.Keys == sys.server.publisher.subs.Keys
  {
  }

  /** Building frames moves style cursors and nothing else of a subscription. */
  lemma {:induction false} BuiltSubs(s: SurfaceState, emissions: seq<Emission>, n: nat)
    requires 1 <= s.screen.rows == |s.screen.lines| && n <= |emissions|
    ensures SameButStyles(s.publisher.subs, Built(s, emissions, n).state.publisher.subs)
  {
    hide FrameStep;
    if n == 0 {
    } else {
      BuiltSubs(s, emissions, n - 1);
      FrameStepSubs(Built(s, emissions, n - 1).state, emissions[n - 1]);
    }
  }

  lemma NotedSubs(s: SurfaceState, client: ClientId)
    ensures SameButStyles(s.publisher.subs, Noted(s, client).publisher.subs)
  {
  }

  lemma FrameStepSubs(s: SurfaceState, e: Emission)
    requires 1 <= s.screen.rows == |s.screen.lines|
    ensures SameButStyles(s.publisher.subs, FrameStep(s, e).state.publisher.subs)
  {
    hide Rendered, Noted, SameButStyles;
    NotedSubs(BuiltSnapshot(s).1, e.client);
    match e.kind
    case BellOnly => NotedNothing(s.publisher.subs);
    case SnapshotKind =>
    case DeltaKind(_, _, _, _, _) =>
      var s' := BuiltDelta(s, e.since, e.kind).1;
      NotedSubs(s', e.client);
      NotedSubs(BuiltSnapshot(s').1, e.client);
  }

  lemma NotedNothing(subs: map<ClientId, Subscription>)
    ensures SameButStyles(subs, subs)
  {
  }

  lemma FlushedModes(p: PublisherState, now: nat, seqNo: nat, generation: nat)
    ensures SameModes(p.subs, FlushedSubs(p, now, seqNo, generation))
  {
  }

  lemma ForcedKeeps(s: SurfaceState)
    requires ServerOk(s)
    ensures Keeps(s, Recorded(s, Forced)) && SameModes(s.publisher.subs, Recorded(s, Forced).publisher.subs)
  {
    hide Synced;
  }

  lemma KeepsInv(sys: System, s': SurfaceState)
    requires Inv(sys) && Keeps(sys.server, s')
    ensures Inv(sys.(server := s'))
  {
    hide Tracks, LinkOk, ServerOk, Drained;
  }

  lemma AheadRefl(s: SurfaceState)
    requires ValidTable(s.styles.table) && !s.styles.overflowed
    ensures Ahead(s, s)
  {
  }

  /** A flush keeps the invariant. */
  lemma FlushKeeps(sys: System, now: nat)
    requires Inv(sys)
    ensures Inv(AfterFlush(sys, now))
  {
    hide Tracks, LinkOk, Drained, Built, EmissionsAt, FlushedState, ShouldFlush;
    var s, handed := sys.server, HandedAfter(sys, Flushed(sys.server, now).1);
    if !ShouldFlush(s.publisher, now) {
      QuietFlush(sys, handed);
    } else if EmissionsAt(s, now) == [] {
      EmptyFlush(sys, now, handed);
    } else {
      FullFlush(sys, now, handed);
    }
  }

  lemma QuietFlush(sys: System, handed: map<ClientId, set<nat>>)
    requires Inv(sys)
    ensures Inv(sys.(handed := handed))
  {
    hide Tracks, LinkOk, ServerOk, Drained;
  }

  lemma EmptyFlush(sys: System, now: nat, handed: map<ClientId, set<nat>>)
    requires Inv(sys) && EmissionsAt(sys.server, now) == []
    ensures Inv(System(Committed(sys.server, now), sys.links, handed))
  {
    hide Tracks, LinkOk, Drained, FlushedOne, EmissionsAt, SubOk;
    var start := Committed(sys.server, now);
    AheadRefl(start);
    LoopEnd(sys, now, start, start, sys.links, handed);
  }

  /** The server after the frame loop: every client is owed a Snapshot if the table overflowed. */
  ghost function Closed(built: Step): SurfaceState {
    if built.overflowed then Recorded(built.state, Forced) else built.state
  }

  lemma ClosedModes(s: SurfaceState, now: nat)
    requires s.screen.Valid()
    ensures var emissions := EmissionsAt(s, now);
            var built := Built(LoopStart(s, now), emissions, |emissions|);
            SameModes(s.publisher.subs, Closed(built).publisher.subs)
  {
    hide FlushedOne, EmissionsAt, Built;
    var start, emissions := LoopStart(s, now), EmissionsAt(s, now);
    FlushedModes(s.publisher, now, s.seqNo + 1, s.styles.generation);
    BuiltSubs(start, emissions, |emissions|);
  }

  lemma FullFlush(sys: System, now: nat, handed: map<ClientId, set<nat>>)
    requires Inv(sys)
    ensures var emissions := EmissionsAt(sys.server, now);
            var built := Built(LoopStart(sys.server, now), emissions, |emissions|);
            Inv(System(Closed(built), Posted(sys.links, Closed(built).publisher.subs, built.frames), handed))
  {
    hide Tracks, LinkOk, Drained, Built, EmissionsAt, SubOk, LoopInv, Synced;
    var s, start, emissions := sys.server, LoopStart(sys.server, now), EmissionsAt(sys.server, now);
    var built := Built(start, emissions, |emissions|);
    var modes := Closed(built).publisher.subs;
    var links := Posted(sys.links, modes, built.frames);
    ClosedModes(s, now);
    FrameLoop(sys, now, modes, |emissions|);
    LoopEnd(sys, now, start, built.state, links, handed);
    if built.overflowed {
      ForcedKeeps(built.state);
      KeepsInv(System(built.state, links, handed), Closed(built));
    }
  }
}
