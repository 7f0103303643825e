/** What every reachable state keeps: each client, once it has applied all that
    is on its way to it, agrees with the engine up to what its subscription
    has pending. */
module Invariants {
  import opened Wire
  import opened StyleTables
  import opened Engine
  import opened Publishing
  import opened Surfaces
  import opened Replicas
  import opened Systems

  // ------------------------------------------------------------ the server

  ghost predicate SubOk(s: SurfaceState, sub: Subscription) {
    && sub.pending.dirty.rows == s.screen.rows && sub.pending.dirty.Valid()
    && sub.lastAcked <= sub.lastSent <= s.seqNo
    && sub.stylesGeneration <= s.styles.generation
  }

  ghost predicate ServerOk(s: SurfaceState) {
    && s.screen.Valid() && ValidTable(s.styles.table) && !s.styles.overflowed
    && s.publisher.rows == s.screen.rows
    && forall c :: c in s.publisher.subs ==> SubOk(s, s.publisher.subs[c])
  }

  // ------------------------------------------------------------ the stream

  /** The row indices a Delta names. */
  ghost function NamedRows(d: Delta): set<nat> {
    set k | 0 <= k < |d.rows| :: d.rows[k].index
  }

  function RowsAfter(r: ReplicaState, d: Delta): nat {
    if d.resized.Some? then d.resized.value.rows else r.rows
  }

  /** Rows inside the grid in ascending order; all of them when the grid was
      resized or its first line moved. */
  ghost predicate Covers(r: ReplicaState, d: Delta) {
    && (forall j, k :: 0 <= j < k < |d.rows| ==> d.rows[j].index < d.rows[k].index)
    && NamedRows(d) <= Below(RowsAfter(r, d))
    && (d.resized.Some? || d.historyBase + d.historyLen != r.FirstVisible() ==> NamedRows(d) == Below(RowsAfter(r, d)))
  }

  /** A frame a replica can take: it chains, and an Active one repaints what it shifts. */
  ghost predicate Fits(r: ReplicaState, sent: Sent) {
    match sent.frame
    case SnapshotMsg(snap) => sent.mode == Active ==> ValidTable(snap.styles) && |snap.grid| == snap.rows
    case DeltaMsg(d) => !IsGap(r, d) && (sent.mode == Active ==> Covers(r, d))
    case HistoryMsg(_) => false
    case _ => true
  }

  /** Every frame on its way down fits the replica it will find. */
  ghost predicate StreamOk(link: Link)
    decreases |link.down|
  {
    link.down == [] || (Fits(link.replica, link.down[0]) && StreamOk(PoppedDown(link)))
  }

  ghost predicate Quiet(r: ReplicaState) {
    r.counters.gaps == 0 && r.counters.resyncs == 0
  }

  ghost predicate LinkOk(link: Link) {
    && StreamOk(link) && Quiet(link.replica)
    && forall m :: m in Drained(link).up ==> m.AckMsg?
  }

  // ------------------------------------------------------------ agreement

  ghost predicate ScalarsSynced(s: SurfaceState, p: Coalesced, r: ReplicaState) {
    && (p.cursor || (r.cursor == s.screen.cursor && s.lastCursor == s.screen.cursor))
    && (p.modes || (r.modes == s.screen.modes && s.lastModes == s.screen.modes))
    && (p.title || (r.title == s.screen.title && s.lastTitle == s.screen.title))
    && (p.history ||
        (r.historyBase == s.screen.historyBase && s.lastBase == s.screen.historyBase &&
         r.historyLen == s.screen.historyLen && s.lastLen == s.screen.historyLen))
    && (if p.resized.Some?
        then p.resized.value == Size(s.screen.cols, s.screen.rows) && p.dirty.IsFull()
        else r.cols == s.screen.cols && r.rows == s.screen.rows)
    && |r.visible| == r.rows
    && r.exited == s.status
  }

  /** In the current generation the client's table is what it was sent of the server's. */
  ghost predicate StylesSynced(t: TableState, sub: Subscription, r: ReplicaState) {
    sub.stylesGeneration == t.generation ==>
      sub.stylesSent <= |t.table| && r.styles == t.table[..sub.stylesSent]
  }

  /** Every row that is not dirty shows the engine's line through the client's own table. */
  ghost predicate RowsSynced(screen: Screen, p: Coalesced, r: ReplicaState) {
    p.dirty.IsFull() || (
      && p.resized.None?
      && r.FirstVisible() == screen.FirstVisible()
      && |r.visible| == screen.rows == |screen.lines|
      && forall i :: 0 <= i < screen.rows && i !in p.dirty.bits ==> RowShows(r.styles, r.visible[i], screen.lines[i]))
  }

  ghost predicate Synced(s: SurfaceState, sub: Subscription, r: ReplicaState) {
    && r.seqNo == sub.lastSent
    && ScalarsSynced(s, sub.pending, r)
    && (sub.mode == Active ==> StylesSynced(s.styles, sub, r) && RowsSynced(s.screen, sub.pending, r))
  }

  /** A subscription and the client it will have once everything sent has arrived. */
  ghost predicate Tracks(s: SurfaceState, sub: Subscription, settled: Link) {
    && (sub.needsSnapshot || Synced(s, sub, settled.replica))
    && (sub.lastAcked == sub.lastSent || AckMsg(sub.lastSent) in settled.up)
  }

  ghost predicate Inv(sys: System) {
    && ServerOk(sys.server)
    && sys.server.publisher.subs.Keys <= sys.links.Keys
    && (forall c :: c in sys.links ==> LinkOk(sys.links[c]))
    && (forall c :: c in sys.server.publisher.subs ==>
          Tracks(sys.server, sys.server.publisher.subs[c], Drained(sys.links[c])))
  }

  /** Agreement does not look at the publisher. */
  lemma SyncedUnpublished(s: SurfaceState, s': SurfaceState, sub: Subscription, r: ReplicaState)
    requires Synced(s, sub, r) && s' == s.(publisher := s'.publisher)
    ensures Synced(s', sub, r)
  {
    hide RowsSynced, StylesSynced;
  }

  // ------------------------------------------------------------ links

  lemma {:induction false} Append(link: Link, sent: Sent)
    requires StreamOk(link) && Fits(Drained(link).replica, sent)
    ensures var longer := link.(down := link.down + [sent]);
            StreamOk(longer) && Drained(longer) == Dispatched(Drained(link), sent.frame)
    decreases |link.down|
  {
    var longer := link.(down := link.down + [sent]);
    if link.down == [] {
      assert Drained(PoppedDown(longer)) == PoppedDown(longer);
    } else {
      assert longer.down[1..] == link.down[1..] + [sent];
      var next := PoppedDown(link);
      assert PoppedDown(longer) == next.(down := next.down + [sent]);
      Append(next, sent);
    }
  }

  // ------------------------------------------------------------ engine changes

  /** A server step that keeps the server well-formed and every subscription tracking its client. */
  ghost predicate Keeps(s: SurfaceState, s': SurfaceState) {
    && ServerOk(s') && s'.publisher.subs.Keys == s.publisher.subs.Keys
    && forall c, settled :: c in s.publisher.subs && Tracks(s, s.publisher.subs[c], settled)
         ==> Tracks(s', s'.publisher.subs[c], settled)
  }

  /** One subscription's pending set after a feed. */
  ghost function FedPending(s: SurfaceState, screen: Screen, damage: Damage, titled: bool, bell: bool, p: Coalesced): Coalesced {
    var evented := Marked(p, Marks(false, false, titled, bell, false));
    Marked(if damage.IsEmpty() then evented else Damaged(evented, damage), Changes(s.(screen := screen)))
  }

  lemma FedSub(s: SurfaceState, screen: Screen, damage: Damage, titled: bool, bell: bool, c: ClientId)
    requires c in s.publisher.subs
    ensures var s' := AfterFeed(s, screen, damage, titled, bell);
            var sub := s.publisher.subs[c];
            c in s'.publisher.subs && s'.publisher.subs[c] == sub.(pending := FedPending(s, screen, damage, titled, bell, sub.pending))
  {
  }

  lemma FeedScalars(s: SurfaceState, screen: Screen, damage: Damage, titled: bool, bell: bool, p: Coalesced, r: ReplicaState)
    requires screen.cols == s.screen.cols && screen.rows == s.screen.rows && p.dirty.rows == screen.rows
    requires damage.Rows? ==> damage.dirty.rows == screen.rows && damage.dirty.Valid()
    requires ScalarsSynced(s, p, r)
    ensures ScalarsSynced(s.(screen := screen), FedPending(s, screen, damage, titled, bell, p), r)
  {
  }

  lemma FedDirty(s: SurfaceState, screen: Screen, damage: Damage, titled: bool, bell: bool, p: Coalesced)
    requires p.dirty.rows == screen.rows
    requires damage.Rows? ==> damage.dirty.rows == screen.rows
    ensures var q := FedPending(s, screen, damage, titled, bell, p);
            && q.resized == p.resized && q.dirty.rows == screen.rows
            && q.dirty.bits == if damage.Full? then Below(screen.rows) else p.dirty.bits + damage.dirty.bits
  {
  }

  lemma FeedRows(s: SurfaceState, screen: Screen, damage: Damage, titled: bool, bell: bool, p: Coalesced, r: ReplicaState)
    requires Advances(s.screen, screen, damage)
    requires p.dirty.rows == screen.rows && p.dirty.Valid()
    requires RowsSynced(s.screen, p, r)
    ensures RowsSynced(screen, FedPending(s, screen, damage, titled, bell, p), r)
  {
    hide RowShows, FedPending;
    FedDirty(s, screen, damage, titled, bell, p);
    if damage.Rows? && p.dirty.IsFull() {
      assert p.dirty.bits + damage.dirty.bits == p.dirty.bits;
    }
  }

  lemma FeedKeeps(s: SurfaceState, screen: Screen, damage: Damage, titled: bool, bell: bool)
    requires ServerOk(s) && Advances(s.screen, screen, damage)
    ensures Keeps(s, AfterFeed(s, screen, damage, titled, bell))
  {
    hide FedPending, AfterFeed, Advances, ScalarsSynced, RowsSynced, StylesSynced;
    var s' := AfterFeed(s, screen, damage, titled, bell);
    FeedServer(s, screen, damage, titled, bell);
    forall c, settled | c in s.publisher.subs && Tracks(s, s.publisher.subs[c], settled)
      ensures Tracks(s', s'.publisher.subs[c], settled)
    {
      FedSub(s, screen, damage, titled, bell, c);
      FeedTracks(s, screen, damage, titled, bell, s.publisher.subs[c], settled);
    }
  }

  lemma AdvancesShape(from: Screen, to: Screen, damage: Damage)
    requires Advances(from, to, damage)
    ensures to.cols == from.cols && to.rows == from.rows
    ensures damage.Rows? ==> damage.dirty.rows == to.rows && damage.dirty.Valid()
  {
  }

  lemma FeedServer(s: SurfaceState, screen: Screen, damage: Damage, titled: bool, bell: bool)
    requires ServerOk(s) && Advances(s.screen, screen, damage)
    ensures var s' := AfterFeed(s, screen, damage, titled, bell);
            ServerOk(s') && s'.publisher.subs.Keys == s.publisher.subs.Keys
  {
    hide AfterFeed, FedPending;
    var s' := AfterFeed(s, screen, damage, titled, bell);
    FeedFrame(s, screen, damage, titled, bell);
    AdvancesShape(s.screen, screen, damage);
    forall c | c in s'.publisher.subs
      ensures SubOk(s', s'.publisher.subs[c])
    {
      FedSub(s, screen, damage, titled, bell, c);
      FedDirty(s, screen, damage, titled, bell, s.publisher.subs[c].pending);
    }
  }

  /** A feed touches the screen and the subscriptions. */
  lemma FeedFrame(s: SurfaceState, screen: Screen, damage: Damage, titled: bool, bell: bool)
    ensures var s' := AfterFeed(s, screen, damage, titled, bell);
            && s' == s.(screen := screen, publisher := s.publisher.(subs := s'.publisher.subs))
            && s'.publisher.subs.Keys == s.publisher.subs.Keys
  {
  }

  lemma FeedTracks(s: SurfaceState, screen: Screen, damage: Damage, titled: bool, bell: bool, sub: Subscription, settled: Link)
    requires SubOk(s, sub) && Advances(s.screen, screen, damage) && Tracks(s, sub, settled)
    ensures Tracks(AfterFeed(s, screen, damage, titled, bell),
                   sub.(pending := FedPending(s, screen, damage, titled, bell, sub.pending)), settled)
  {
    hide FedPending, RowsSynced, ScalarsSynced, Advances, AfterFeed;
    FeedFrame(s, screen, damage, titled, bell);
    var sub' := sub.(pending := FedPending(s, screen, damage, titled, bell, sub.pending));
    if !sub.needsSnapshot {
      AdvancesShape(s.screen, screen, damage);
      FeedScalars(s, screen, damage, titled, bell, sub.pending, settled.replica);
      if sub.mode == Active {
        FeedRows(s, screen, damage, titled, bell, sub.pending, settled.replica);
      }
      SyncedUnpublished(s.(screen := screen), AfterFeed(s, screen, damage, titled, bell), sub', settled.replica);
    }
  }

  /** One subscription after a resize. */
  ghost function ResizedSub(s: SurfaceState, wanted: Size, screen: Screen, sub: Subscription): Subscription {
    sub.(pending := Marked(PendingResize(sub.pending, wanted), Changes(s.(screen := screen))))
  }

  lemma ResizeSub(s: SurfaceState, size: Size, screen: Screen, c: ClientId)
    requires c in s.publisher.subs && AtLeastOne(size) != Size(s.screen.cols, s.screen.rows)
    ensures var s' := AfterResize(s, size, screen);
            c in s'.publisher.subs && s'.publisher.subs[c] == ResizedSub(s, AtLeastOne(size), screen, s.publisher.subs[c])
  {
  }

  lemma ResizeTracks(s: SurfaceState, s': SurfaceState, sub: Subscription, settled: Link)
    requires Size(s'.screen.cols, s'.screen.rows) != Size(s.screen.cols, s.screen.rows) && s'.screen.Valid()
    requires SubOk(s, sub) && s' == s.(screen := s'.screen, publisher := s'.publisher)
    requires Tracks(s, sub, settled)
    ensures Tracks(s', ResizedSub(s, Size(s'.screen.cols, s'.screen.rows), s'.screen, sub), settled)
  {
  }

  lemma ResizeSubOk(s: SurfaceState, s': SurfaceState, sub: Subscription)
    requires SubOk(s, sub) && s' == s.(screen := s'.screen, publisher := s'.publisher)
    ensures SubOk(s', ResizedSub(s, Size(s'.screen.cols, s'.screen.rows), s'.screen, sub))
  {
  }

  /** A resize does nothing, or touches the screen and the subscriptions. */
  lemma ResizeFrame(s: SurfaceState, size: Size, screen: Screen)
    requires Size(screen.cols, screen.rows) == AtLeastOne(size)
    ensures var s' := AfterResize(s, size, screen);
            if AtLeastOne(size) == Size(s.screen.cols, s.screen.rows) then s' == s
            else && s' == s.(screen := screen, publisher := s.publisher.(subs := s'.publisher.subs, rows := screen.rows))
                 && s'.publisher.subs.Keys == s.publisher.subs.Keys
  {
  }

  lemma ResizeKeeps(s: SurfaceState, size: Size, screen: Screen)
    requires ServerOk(s) && screen.Valid() && Size(screen.cols, screen.rows) == AtLeastOne(size)
    ensures Keeps(s, AfterResize(s, size, screen))
  {
    hide Tracks, SubOk, ResizedSub, AfterResize;
    var s' := AfterResize(s, size, screen);
    ResizeFrame(s, size, screen);
    if AtLeastOne(size) != Size(s.screen.cols, s.screen.rows) {
      forall c | c in s.publisher.subs
        ensures c in s'.publisher.subs && SubOk(s', s'.publisher.subs[c])
        ensures forall settled :: Tracks(s, s.publisher.subs[c], settled) ==> Tracks(s', s'.publisher.subs[c], settled)
      {
        ResizeSub(s, size, screen, c);
        ResizeSubOk(s, s', s.publisher.subs[c]);
        forall settled | Tracks(s, s.publisher.subs[c], settled)
          ensures Tracks(s', s'.publisher.subs[c], settled)
        {
          ResizeTracks(s, s', s.publisher.subs[c], settled);
        }
      }
    }
  }

  lemma ResetKeeps(s: SurfaceState, screen: Screen)
    requires ServerOk(s) && screen.Valid() && screen.rows == s.screen.rows
    ensures Keeps(s, AfterReset(s, screen))
  {
  }

  lemma HistoryKeeps(s: SurfaceState, lines: seq<Line>)
    requires ServerOk(s)
    ensures Keeps(s, AfterHistory(s, lines))
  {
    hide PackRows, RowsSynced, ScalarsSynced;
    PackRowsShow(lines, s.styles);
    var s' := AfterHistory(s, lines);
    forall c, settled | c in s.publisher.subs && Tracks(s, s.publisher.subs[c], settled)
      ensures Tracks(s', s'.publisher.subs[c], settled)
    {
      HistoryScalars(s, s', s.publisher.subs[c].pending, settled.replica);
    }
  }

  lemma HistoryScalars(s: SurfaceState, s': SurfaceState, p: Coalesced, r: ReplicaState)
    requires s' == s.(styles := s'.styles, publisher := s'.publisher)
    ensures ScalarsSynced(s, p, r) ==> ScalarsSynced(s', p, r)
  {
  }
}
