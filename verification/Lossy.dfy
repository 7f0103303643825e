/** The Gap check at work: what a client shows when frames are lost on the way,
    which the channels of the system never do. */
module LossyStreams {
  import opened Wire
  import opened StyleTables
  import opened Engine
  import opened Publishing
  import opened Surfaces
  import opened Replicas
  import opened Systems
  import opened Invariants
  import opened FrameLemmas
  import opened FlushLemmas
  import opened Convergence
  import opened Discipline
  import opened Moments
  import opened Sends
  import opened CliReplicas

  // ------------------------------------------------------------ the same picture

  /** Two native replicas alike but for their history caches and counters. */
  ghost predicate SameView(l: ReplicaState, r: ReplicaState) {
    && l == r.(history := l.history, cacheBase := l.cacheBase, cap := l.cap, counters := l.counters)
    && |r.visible| == r.rows
  }

  /** Two grids painted all over by the same Delta are the same. */
  lemma PaintedSame(a: seq<Row>, b: seq<Row>, cols: nat, d: Delta)
    requires |a| == |b|
    requires forall j, k :: 0 <= j < k < |d.rows| ==> d.rows[j].index < d.rows[k].index
    requires forall k :: 0 <= k < |d.rows| ==> d.rows[k].index < |a|
    requires a == b || NamedRows(d) == Below(|a|)
    ensures WriteRows(a, cols, d.rows) == WriteRows(b, cols, d.rows)
  {
    hide WriteRows, TruncateRow;
    if a != b {
      WriteRowsAt(a, cols, d.rows);
      WriteRowsAt(b, cols, d.rows);
      forall i | 0 <= i < |a|
        ensures WriteRows(a, cols, d.rows)[i] == WriteRows(b, cols, d.rows)[i]
      {
        assert i in NamedRows(d);
        var k :| 0 <= k < |d.rows| && d.rows[k].index == i;
      }
    }
  }

  lemma NamedInside(d: Delta, n: nat)
    requires NamedRows(d) <= Below(n)
    ensures forall k :: 0 <= k < |d.rows| ==> d.rows[k].index < n
  {
    forall k | 0 <= k < |d.rows|
      ensures d.rows[k].index < n
    {
      assert d.rows[k].index in NamedRows(d);
    }
  }

  /** A chaining Delta that repaints what it shifts does not tell them apart,
      whatever they have cached. */
  lemma DeltaSameView(l: ReplicaState, r: ReplicaState, d: Delta)
    requires SameView(l, r) && !IsGap(r, d) && Covers(r, d)
    ensures SameView(AfterDelta(l, d), AfterDelta(r, d))
  {
    hide SetStyles, WriteRows, BeforeRows, NamedRows;
    BeforeRowsShape(l, d);
    BeforeRowsShape(r, d);
    var a, b := BeforeRows(l, d), BeforeRows(r, d);
    NamedInside(d, b.rows);
    PaintedSame(a.visible, b.visible, b.cols, d);
    BeforeRowsRest(l, d);
    BeforeRowsRest(r, d);
  }

  lemma BeforeRowsRest(r: ReplicaState, d: Delta)
    ensures var b := BeforeRows(r, d);
            b == r.(styles := b.styles, cols := b.cols, rows := b.rows, visible := b.visible, history := b.history,
                    cacheBase := b.cacheBase, historyBase := b.historyBase, historyLen := b.historyLen)
  {
    hide SetStyles, FitRows;
  }

  lemma SnapshotSameView(l: ReplicaState, r: ReplicaState, snap: Snapshot)
    ensures SameView(AfterSnapshot(l, snap), AfterSnapshot(r, snap))
  {
  }

  // ------------------------------------------------------------ numbered streams

  /** Every numbered frame is numbered above what came before it. */
  ghost predicate Numbered(r: ReplicaState, down: seq<Sent>)
    decreases |down|
  {
    down == [] ||
    ((NumberOf(down[0].frame).Some? ==> NumberOf(down[0].frame).value > r.seqNo) && Numbered(Taken(r, down[0].frame), down[1..]))
  }

  /** A stream a client can follow: every frame fits, and Deltas were sent as to
      an Active attachment. */
  ghost predicate Followable(r: ReplicaState, down: seq<Sent>)
    decreases |down|
  {
    down == [] ||
    (&& Fits(r, down[0]) && (down[0].frame.DeltaMsg? ==> down[0].mode == Active)
     && Followable(Taken(r, down[0].frame), down[1..]))
  }

  /** The replica after the first `n` frames of a stream, none lost. */
  function After(r: ReplicaState, down: seq<Sent>, n: nat): ReplicaState
    requires n <= |down|
  {
    if n == 0 then r else Taken(After(r, down, n - 1), down[n - 1].frame)
  }

  lemma {:induction false} AfterShift(r: ReplicaState, down: seq<Sent>, n: nat)
    requires 1 <= n <= |down|
    ensures After(r, down, n) == After(Taken(r, down[0].frame), down[1..], n - 1)
  {
    hide Taken;
    if n == 1 {
    } else {
      AfterShift(r, down, n - 1);
    }
  }

  /** Frame `n` of a stream fits the replica it finds, and is numbered above it. */
  lemma {:induction false} StreamAt(r: ReplicaState, down: seq<Sent>, n: nat)
    requires n < |down| && Followable(r, down) && Numbered(r, down)
    ensures var at := After(r, down, n);
            && Fits(at, down[n]) && (down[n].frame.DeltaMsg? ==> down[n].mode == Active)
            && (NumberOf(down[n].frame).Some? ==> NumberOf(down[n].frame).value > at.seqNo)
    decreases n
  {
    hide Taken, Fits;
    if n == 0 {
    } else {
      StreamAt(Taken(r, down[0].frame), down[1..], n - 1);
      AfterShift(r, down, n);
    }
  }

  /** A frame without a number leaves what a replica shows; one with a number
      that fits sets it. */
  lemma TakenNumber(r: ReplicaState, sent: Sent)
    requires Fits(r, sent)
    ensures var r', number := Taken(r, sent.frame), NumberOf(sent.frame);
            if number.Some? then r'.seqNo == number.value else r' == r
  {
    hide BeforeRows, WriteRows, FitRows, Covers;
  }

  lemma {:induction false} AfterRises(r: ReplicaState, down: seq<Sent>, m: nat, n: nat)
    requires m <= n <= |down| && Followable(r, down) && Numbered(r, down)
    ensures After(r, down, m).seqNo <= After(r, down, n).seqNo
    ensures After(r, down, m).seqNo == After(r, down, n).seqNo ==> After(r, down, m) == After(r, down, n)
    decreases n
  {
    hide Taken, Fits, Followable, Numbered;
    if n == m {
    } else {
      AfterRises(r, down, m, n - 1);
      StreamAt(r, down, n - 1);
      TakenNumber(After(r, down, n - 1), down[n - 1]);
    }
  }

  // ------------------------------------------------------------ every channel is numbered

  /** A channel whose frames are numbered upwards, up to `bound`. */
  ghost predicate InOrder(link: Link, bound: nat) {
    Numbered(link.replica, link.down) && Drained(link).replica.seqNo <= bound
  }

  ghost predicate AllInOrder(links: map<ClientId, Link>, bound: nat) {
    forall c :: c in links ==> InOrder(links[c], bound)
  }

  lemma {:induction false} AppendNumbered(link: Link, sent: Sent)
    requires Numbered(link.replica, link.down)
    requires NumberOf(sent.frame).Some? ==> NumberOf(sent.frame).value > Drained(link).replica.seqNo
    ensures Numbered(link.replica, link.down + [sent])
    decreases |link.down|
  {
    hide Taken, Dispatched;
    var longer := link.down + [sent];
    if link.down == [] {
      assert longer[1..] == [];
    } else {
      assert longer[0] == link.down[0] && longer[1..] == link.down[1..] + [sent];
      TakenIs(link.(down := link.down[1..]), link.down[0].frame);
      AppendNumbered(PoppedDown(link), sent);
    }
  }

  lemma TakenNumberOr(r: ReplicaState, frame: Frame)
    ensures Taken(r, frame).seqNo == r.seqNo || NumberOf(frame) == Some(Taken(r, frame).seqNo)
  {
    hide WriteRows, FitRows, ClippedRows, SetStyles;
  }

  /** One more frame, numbered above all there is if it is numbered. */
  lemma PlusInOrder(link: Link, sent: Sent, bound: nat, bound': nat)
    requires InOrder(link, bound) && bound <= bound'
    requires NumberOf(sent.frame).Some? ==> bound < NumberOf(sent.frame).value <= bound'
    ensures InOrder(Plus(link, sent), bound')
    ensures NumberOf(sent.frame).None? ==> InOrder(Plus(link, sent), bound)
  {
    hide Taken, Numbered, Drained, Dispatched;
    AppendNumbered(link, sent);
    PlusDrained(link, sent);
    TakenIs(Drained(link), sent.frame);
    TakenNumberOr(Drained(link).replica, sent.frame);
  }

  function NumberCount(frames: seq<Frame>): nat {
    if frames == [] then 0 else NumberCount(frames[..|frames| - 1]) + if NumberOf(frames[|frames| - 1]).Some? then 1 else 0
  }

  /** At most one numbered frame, carrying `number`. */
  ghost predicate OneNumber(frames: seq<Frame>, number: nat) {
    NumberCount(frames) <= 1 && forall k :: 0 <= k < |frames| ==> NumberOf(frames[k]) in {None, Some(number)}
  }

  lemma StrippedNumber(frame: Frame, mode: AttachMode)
    ensures NumberOf(Stripped(frame, mode)) == NumberOf(frame)
  {
  }

  lemma {:induction false} PostedInOrder(links: map<ClientId, Link>, subs: map<ClientId, Subscription>, frames: seq<ClientFrame>,
                                          c: ClientId, bound: nat)
    requires c in links && InOrder(links[c], bound) && OneNumber(FramesFor(frames, c), bound + 1)
    ensures var posted := Posted(links, subs, frames);
            && c in posted && InOrder(posted[c], bound + 1)
            && (NumberCount(FramesFor(frames, c)) == 0 ==> InOrder(posted[c], bound))
  {
    hide Numbered, Drained, Stripped;
    if frames == [] {
    } else {
      hide InOrder;
      var front, last := frames[..|frames| - 1], frames[|frames| - 1];
      if last.client == c {
        var before := FramesFor(front, c);
        assert FramesFor(frames, c) == before + [last.frame];
        assert (before + [last.frame])[..|before|] == before;
        assert forall k :: 0 <= k < |before| ==> before[k] == (before + [last.frame])[k];
        PostedInOrder(links, subs, front, c, bound);
        var mode := ModeIn(subs, c);
        StrippedNumber(last.frame, mode);
        var link := Posted(links, subs, front)[c];
        if NumberOf(last.frame).Some? {
          PlusInOrder(link, Sent(Stripped(last.frame, mode), mode), bound, bound + 1);
        } else {
          PlusInOrder(link, Sent(Stripped(last.frame, mode), mode), bound + 1, bound + 1);
          if NumberCount(before) == 0 {
            PlusInOrder(link, Sent(Stripped(last.frame, mode), mode), bound, bound);
          }
        }
      } else {
        assert FramesFor(front, c) + [] == FramesFor(front, c);
        PostedInOrder(links, subs, front, c, bound);
      }
    }
  }

  lemma FlushNumbersOne(sys: System, now: nat, c: ClientId)
    requires Inv(sys)
    ensures OneNumber(FramesFor(Flushed(sys.server, now).1, c), sys.server.seqNo + 1)
    ensures !ShouldFlush(sys.server.publisher, now) ==> FramesFor(Flushed(sys.server, now).1, c) == []
  {
    hide FramesFor, OneNumber, LinkOk, Tracks, IsServed, OwesSnapshot, Emissions, Built, FlushedState;
    var s := sys.server;
    NoFramesFor(c);
    NothingNumbered(s.seqNo + 1);
    if ShouldFlush(s.publisher, now) {
      if c in s.publisher.subs {
        FlushSends(sys, now, c);
        BellAndOne(FramesFor(Flushed(s, now).1, c), if s.publisher.subs[c].pending.bell then 1 else 0, s.seqNo + 1);
      } else if EmissionsAt(s, now) != [] {
        NotAmong(s.publisher, now, s.seqNo + 1, s.styles.generation, c);
        BuiltForNone(LoopStart(s, now), EmissionsAt(s, now), |EmissionsAt(s, now)|, c);
      }
    }
  }

  lemma NothingNumbered(number: nat)
    ensures OneNumber([], number)
  {
  }

  lemma BellAndOne(got: seq<Frame>, bells: nat, number: nat)
    requires bells <= 1 && bells <= |got| <= bells + 1
    requires (bells == 1 ==> got[0] == BellMsg) && (|got| == bells + 1 ==> NumberOf(got[bells]) == Some(number))
    ensures OneNumber(got, number)
  {
    assert NumberCount([]) == 0;
    if |got| == 1 {
      assert got[..0] == [];
    } else if |got| == 2 {
      assert got[..1][..0] == [] && got[..1][0] == got[0];
    }
  }

  lemma StepInOrder(sys: System, e: Event, sys': System)
    requires Inv(sys) && Follows(sys, e, sys') && AllInOrder(sys.links, sys.server.seqNo)
    ensures AllInOrder(sys'.links, sys'.server.seqNo)
  {
    hide Follows, Inv, InOrder;
    NumberRises(sys, e, sys');
    forall c | c in sys'.links
      ensures InOrder(sys'.links[c], sys'.server.seqNo)
    {
      LinkInOrder(sys, e, sys', c);
    }
  }

  lemma InOrderMore(link: Link, bound: nat, bound': nat)
    requires InOrder(link, bound) && bound <= bound'
    ensures InOrder(link, bound')
  {
    hide Numbered, Drained;
  }

  lemma FlushInOrder(sys: System, now: nat, c: ClientId)
    requires Inv(sys) && c in sys.links && InOrder(sys.links[c], sys.server.seqNo)
    ensures c in AfterFlush(sys, now).links && InOrder(AfterFlush(sys, now).links[c], AfterFlush(sys, now).server.seqNo)
  {
    hide InOrder, OneNumber, FramesFor, Flushed, HandedAfter, LinkOk, Tracks, EmissionsAt, Posted, ShouldFlush, NumberCount;
    var s, frames := sys.server, Flushed(sys.server, now).1;
    FlushNumbersOne(sys, now, c);
    FlushNumbers(s, now);
    CountNothing();
    if !(ShouldFlush(s.publisher, now) && EmissionsAt(s, now) != []) {
      NoFramesFor(c);
    }
    PostedInOrder(sys.links, Flushed(s, now).0.publisher.subs, frames, c, s.seqNo);
  }

  lemma CountNothing()
    ensures NumberCount([]) == 0
  {
  }

  lemma LinkInOrder(sys: System, e: Event, sys': System, c: ClientId)
    requires Inv(sys) && Follows(sys, e, sys') && AllInOrder(sys.links, sys.server.seqNo)
    requires c in sys'.links && sys.server.seqNo <= sys'.server.seqNo
    ensures InOrder(sys'.links[c], sys'.server.seqNo)
  {
    hide Inv, InOrder, AfterFlush, AfterFeed, AfterResize, AfterReset, AfterHistory, OnAttach, OnUp, WithSub, Drained, Numbered, PoppedDown;
    match e {
      case Connect(d, cap) =>
        if d == c {
          NewInOrder(cap, sys'.server.seqNo);
        } else {
          InOrderMore(sys.links[c], sys.server.seqNo, sys'.server.seqNo);
        }
      case Flush(now) =>
        FlushSameLinks(sys, now, c);
        FlushInOrder(sys, now, c);
      case Exit(status) =>
        InOrderMore(sys.links[c], sys.server.seqNo, sys'.server.seqNo);
        if c in sys.server.publisher.subs {
          PlusInOrder(sys.links[c], Sent(ExitedMsg(sys.server.seqNo + 1, status), sys.server.publisher.subs[c].mode),
                      sys.server.seqNo, sys.server.seqNo + 1);
        }
      case Detach(d) =>
        InOrderMore(sys.links[c], sys.server.seqNo, sys'.server.seqNo);
        PlusInOrder(sys.links[c], Sent(DetachedMsg, Active), sys.server.seqNo, sys'.server.seqNo);
      case DeliverDown(d) =>
        InOrderMore(sys.links[c], sys.server.seqNo, sys'.server.seqNo);
        if d == c {
          PoppedInOrder(sys.links[c], sys'.server.seqNo);
        }
      case DeliverUp(d, now) =>
        InvLink(sys, d);
        InOrderMore(sys.links[c], sys.server.seqNo, sys'.server.seqNo);
        if d == c {
          UpInOrder(sys.links[c], sys'.server.seqNo);
        }
      case Attach(d, mode, now) =>
        InvLink(sys, d);
        InOrderMore(sys.links[c], sys.server.seqNo, sys'.server.seqNo);
        if d == c {
          AttachInOrder(sys.links[c], mode, sys'.server.seqNo);
        }
      case _ => InOrderMore(sys.links[c], sys.server.seqNo, sys'.server.seqNo);
    }
  }

  lemma InvLink(sys: System, c: ClientId)
    requires Inv(sys) && c in sys.links
    ensures LinkOk(sys.links[c])
  {
  }

  lemma FlushSameLinks(sys: System, now: nat, c: ClientId)
    requires sys.server.screen.Valid()
    ensures c in AfterFlush(sys, now).links ==> c in sys.links
  {
    hide Flushed, HandedAfter, Posted;
    PostedKeeps(sys.links, Flushed(sys.server, now).0.publisher.subs, Flushed(sys.server, now).1);
  }

  lemma NewInOrder(cap: nat, bound: nat)
    ensures InOrder(Link(NewReplica(cap), None, [], []), bound)
  {
  }

  lemma PoppedInOrder(link: Link, bound: nat)
    requires link.down != [] && InOrder(link, bound)
    ensures InOrder(PoppedDown(link), bound)
  {
    hide Dispatched, Taken;
    TakenIs(link.(down := link.down[1..]), link.down[0].frame);
  }

  lemma UpInOrder(link: Link, bound: nat)
    requires LinkOk(link) && link.up != [] && InOrder(link, bound)
    ensures InOrder(link.(up := link.up[1..]), bound)
  {
    hide Numbered, Drained;
    UpOk(link);
  }

  lemma AttachInOrder(link: Link, mode: AttachMode, bound: nat)
    requires LinkOk(link) && InOrder(link, bound)
    ensures InOrder(link.(attached := Some(mode)), bound)
  {
    hide Numbered, Drained;
    AttachedOk(link, mode);
  }

  lemma {:induction false} RunInOrder(states: seq<System>, events: seq<Event>, k: nat)
    requires IsRun(states, events) && k <= |events|
    ensures AllInOrder(states[k].links, states[k].server.seqNo)
  {
    hide Follows, Inv, AllInOrder;
    if k == 0 {
      NoLinksAtFirst(states[0]);
    } else {
      RunInOrder(states, events, k - 1);
      RunInv(states, events, k - 1);
      assert Follows(states[k - 1], events[k - 1], states[k]);
      StepInOrder(states[k - 1], events[k - 1], states[k]);
    }
  }

  lemma NoLinksAtFirst(sys: System)
    requires Initial(sys)
    ensures AllInOrder(sys.links, sys.server.seqNo)
  {
  }

  /** Every channel of every run is such a stream, for an Active attachment. */
  lemma {:induction false} FollowableFrom(link: Link)
    requires StreamOk(link) && forall k :: 0 <= k < |link.down| && link.down[k].frame.DeltaMsg? ==> link.down[k].mode == Active
    ensures Followable(link.replica, link.down)
    decreases |link.down|
  {
    hide Taken, Fits, Dispatched;
    if link.down == [] {
    } else {
      TakenIs(link.(down := link.down[1..]), link.down[0].frame);
      FollowableFrom(PoppedDown(link));
    }
  }

  // ------------------------------------------------------------ frames lost

  /** Which frames of a stream get through. */
  type Fate = seq<bool>

  /** The native replica after the frames that got through among the first `n`. */
  function Lossy(l: ReplicaState, down: seq<Sent>, fate: Fate, n: nat): ReplicaState
    requires n <= |down| == |fate|
  {
    if n == 0 then l
    else
      var before := Lossy(l, down, fate, n - 1);
      if fate[n - 1] then Taken(before, down[n - 1].frame) else before
  }

  /** The command-line replica likewise. */
  function CliLossy(c: CliState, down: seq<Sent>, fate: Fate, n: nat): CliState
    requires n <= |down| == |fate|
  {
    if n == 0 then c
    else
      var before := CliLossy(c, down, fate, n - 1);
      if fate[n - 1] then CliAfter(before, down[n - 1].frame) else before
  }

  /** No exit event reaches the client while it has missed a numbered frame. */
  ghost predicate ExitsInStep(r: ReplicaState, l: ReplicaState, down: seq<Sent>, fate: Fate)
    requires |down| == |fate|
  {
    forall n :: 0 <= n < |down| && fate[n] && down[n].frame.ExitedMsg? ==> Lossy(l, down, fate, n).seqNo == After(r, down, n).seqNo
  }

  /** A Delta that does not chain changes nothing a replica shows. */
  lemma GapKeepsView(l: ReplicaState, r: ReplicaState, d: Delta)
    requires SameView(l, r) && d.sinceSeq != l.seqNo
    ensures SameView(Taken(l, DeltaMsg(d)), r)
  {
  }

  lemma OtherSameView(l: ReplicaState, r: ReplicaState, frame: Frame)
    requires SameView(l, r) && (frame.BellMsg? || frame.DetachedMsg? || frame.ExitedMsg?)
    ensures SameView(Taken(l, frame), Taken(r, frame))
    ensures !frame.ExitedMsg? ==> SameView(Taken(l, frame), r)
  {
  }

  /** One frame of the stream: the client is where it was in the stream, or
      catches up with it. */
  lemma LossyStep(r: ReplicaState, l: ReplicaState, down: seq<Sent>, n: nat, m: nat)
    requires n < |down| && m <= n && Followable(r, down) && Numbered(r, down) && SameView(l, After(r, down, m))
    requires down[n].frame.ExitedMsg? ==> l.seqNo == After(r, down, n).seqNo
    ensures var l' := Taken(l, down[n].frame);
            SameView(l', After(r, down, m)) || SameView(l', After(r, down, n + 1))
  {
    hide Taken, SameView, Followable, Numbered, Covers, AfterDelta, AfterSnapshot;
    var at, frame := After(r, down, n), down[n].frame;
    StreamAt(r, down, n);
    AfterRises(r, down, m, n);
    ViewNumber(l, After(r, down, m));
    match frame {
      case SnapshotMsg(snap) =>
        SnapshotSameView(l, at, snap);
        TakenSnapshot(l, snap);
        TakenSnapshot(at, snap);
      case DeltaMsg(d) =>
        if d.sinceSeq != l.seqNo {
          GapKeepsView(l, After(r, down, m), d);
        } else {
          DeltaSameView(l, at, d);
          TakenDelta(l, d);
          TakenDelta(at, d);
        }
      case HistoryMsg(_) => assert false;
      case _ => OtherSameView(l, After(r, down, m), frame);
    }
  }

  lemma ViewNumber(l: ReplicaState, r: ReplicaState)
    requires SameView(l, r)
    ensures l.seqNo == r.seqNo
  {
  }

  lemma TakenSnapshot(r: ReplicaState, snap: Snapshot)
    ensures Taken(r, SnapshotMsg(snap)) == AfterSnapshot(r, snap)
  {
  }

  lemma TakenDelta(r: ReplicaState, d: Delta)
    requires !IsGap(r, d)
    ensures Taken(r, DeltaMsg(d)) == AfterDelta(r, d)
  {
  }

  /** The Gap check never lets a torn picture through: whatever frames of its
      stream a client loses, it shows what it would have shown at some point of
      the stream with nothing lost, as long as no exit event reaches it while it
      is behind. */
  lemma {:induction false} LossNeverTears(r: ReplicaState, l: ReplicaState, down: seq<Sent>, fate: Fate, n: nat)
    requires n <= |down| == |fate| && Followable(r, down) && Numbered(r, down) && SameView(l, r)
    requires ExitsInStep(r, l, down, fate)
    ensures exists m :: 0 <= m <= n && SameView(Lossy(l, down, fate, n), After(r, down, m))
  {
    hide Taken, SameView, Followable, Numbered;
    if n == 0 {
      assert SameView(Lossy(l, down, fate, 0), After(r, down, 0));
    } else {
      LossNeverTears(r, l, down, fate, n - 1);
      var m :| 0 <= m <= n - 1 && SameView(Lossy(l, down, fate, n - 1), After(r, down, m));
      if fate[n - 1] {
        LossyStep(r, Lossy(l, down, fate, n - 1), down, n - 1, m);
      }
    }
  }

  /** A replica's grid is always as tall as it says. */
  lemma TakenShape(r: ReplicaState, frame: Frame)
    requires |r.visible| == r.rows
    ensures |Taken(r, frame).visible| == Taken(r, frame).rows
  {
    hide BeforeRows, ClippedRows, SetStyles;
    if frame.DeltaMsg? {
      BeforeRowsShape(r, frame.delta);
    }
  }

  lemma {:induction false} RunShape(states: seq<System>, events: seq<Event>, c: ClientId, k: nat)
    requires IsRun(states, events) && k <= |events| && c in states[k].links
    ensures |states[k].links[c].replica.visible| == states[k].links[c].replica.rows
  {
    hide Follows, Inv, Taken, Delivered;
    if k == 0 {
      assert false;
    } else {
      RunInv(states, events, k - 1);
      assert Follows(states[k - 1], events[k - 1], states[k]);
      if c in states[k - 1].links {
        RunShape(states, events, c, k - 1);
        StepReplica(states[k - 1], events[k - 1], states[k], c);
        var sent := Delivered(states[k - 1], events[k - 1], c);
        if sent.Some? {
          TakenShape(states[k - 1].links[c].replica, sent.value.frame);
        }
      } else {
        NewLink(states[k - 1], events[k - 1], states[k], c);
      }
    }
  }

  lemma NewLink(sys: System, e: Event, sys': System, c: ClientId)
    requires Inv(sys) && Follows(sys, e, sys') && c !in sys.links && c in sys'.links
    ensures |sys'.links[c].replica.visible| == sys'.links[c].replica.rows
  {
    hide AfterFlush, AfterFeed, AfterResize, AfterReset, AfterHistory, AfterExit, OnAttach, OnUp, WithSub, PoppedDown, LinkOk, Tracks, ServerOk;
    if e.Flush? {
      FlushSameLinks(sys, e.now, c);
    }
  }

  /** Over runs: whatever of the frames on its way to a client at any moment got
      lost, it would still show a picture of the unbroken stream. */
  lemma RunLossNeverTears(states: seq<System>, events: seq<Event>, c: ClientId, k: nat, fate: Fate)
    requires IsRun(states, events) && k <= |events| && c in states[k].links
    requires var link := states[k].links[c];
             && |fate| == |link.down|
             && (forall i :: 0 <= i < |link.down| && link.down[i].frame.DeltaMsg? ==> link.down[i].mode == Active)
             && ExitsInStep(link.replica, link.replica, link.down, fate)
    ensures var link := states[k].links[c];
            exists m :: 0 <= m <= |link.down| && SameView(Lossy(link.replica, link.down, fate, |link.down|), After(link.replica, link.down, m))
  {
    hide Follows, Inv, SameView, InOrder, Followable, ExitsInStep;
    RunInv(states, events, k);
    RunInOrder(states, events, k);
    InvLink(states[k], c);
    var link := states[k].links[c];
    LinkStream(link, states[k].server.seqNo);
    RunShape(states, events, c, k);
    ViewRefl(link.replica);
    LossNeverTears(link.replica, link.replica, link.down, fate, |link.down|);
  }

  lemma LinkStream(link: Link, bound: nat)
    requires LinkOk(link) && InOrder(link, bound)
    requires forall i :: 0 <= i < |link.down| && link.down[i].frame.DeltaMsg? ==> link.down[i].mode == Active
    ensures Followable(link.replica, link.down) && Numbered(link.replica, link.down)
  {
    hide Followable, Numbered, StreamOk, Drained;
    FollowableFrom(link);
  }

  lemma ViewRefl(r: ReplicaState)
    requires |r.visible| == r.rows
    ensures SameView(r, r)
  {
  }

  // ------------------------------------------------------------ the command-line client

  lemma CliStep(r: ReplicaState, c: CliState, down: seq<Sent>, n: nat, m: nat)
    requires n < |down| && m <= n && Followable(r, down) && Numbered(r, down) && SamePicture(After(r, down, m), c)
    ensures var c' := CliAfter(c, down[n].frame);
            SamePicture(After(r, down, m), c') || SamePicture(After(r, down, n + 1), c')
  {
    hide Taken, SamePicture, Followable, Numbered, Covers, CliAfterDelta;
    StreamAt(r, down, n);
    AfterRises(r, down, m, n);
    PictureNumber(After(r, down, m), c);
    match down[n].frame {
      case SnapshotMsg(_) => FrameSame(After(r, down, n), c, down[n]);
      case DeltaMsg(d) =>
        if d.sinceSeq != c.seqNo {
          CliGap(c, d);
        } else {
          FrameSame(After(r, down, n), c, down[n]);
        }
      case _ =>
    }
  }

  lemma PictureNumber(n: ReplicaState, c: CliState)
    requires SamePicture(n, c)
    ensures n.seqNo == c.seqNo
  {
  }

  lemma CliGap(c: CliState, d: Delta)
    requires d.sinceSeq != c.seqNo
    ensures CliAfterDelta(c, d) == c
  {
  }

  /** The command-line replica never shows a torn picture either, and no exit
      event can deceive it: it does not take them. */
  lemma {:induction false} CliLossNeverTears(r: ReplicaState, c: CliState, down: seq<Sent>, fate: Fate, n: nat)
    requires n <= |down| == |fate| && Followable(r, down) && Numbered(r, down) && SamePicture(r, c)
    ensures exists m :: 0 <= m <= n && SamePicture(After(r, down, m), CliLossy(c, down, fate, n))
  {
    hide Taken, SamePicture, Followable, Numbered, CliAfter;
    if n == 0 {
      assert SamePicture(After(r, down, 0), CliLossy(c, down, fate, 0));
    } else {
      CliLossNeverTears(r, c, down, fate, n - 1);
      var m :| 0 <= m <= n - 1 && SamePicture(After(r, down, m), CliLossy(c, down, fate, n - 1));
      if fate[n - 1] {
        CliStep(r, CliLossy(c, down, fate, n - 1), down, n - 1, m);
      }
    }
  }

  // ------------------------------------------------------------ how a Gap heals

  /** A Delta that does not chain changes nothing but two counters, and asks for a
      Snapshot in the mode the client is attached in; once that request arrives
      the subscription owes one. */
  lemma GapAsks(s: SurfaceState, link: Link, d: Delta, mode: AttachMode, c: ClientId, now: nat)
    requires d.sinceSeq != link.replica.seqNo && link.attached == Some(mode)
    ensures var out := Dispatched(link, DeltaMsg(d));
            && out.replica == link.replica.(counters := Counters(link.replica.counters.gaps + 1, link.replica.counters.resyncs + 1,
                                                                 link.replica.counters.snapshots))
            && out.up == link.up + [AttachMsg(mode)]
            && var s' := OnUp(s, c, out.up[|out.up| - 1], now);
               c in s'.publisher.subs && s'.publisher.subs[c].needsSnapshot && s'.publisher.subs[c].mode == mode
  {
  }

  /** A Snapshot cures any replica, whatever it had missed. */
  lemma SnapshotCures(s: SurfaceState, r: ReplicaState)
    requires s.screen.Valid() && ValidTable(s.styles.table)
    ensures ShowsAll(AfterSnapshot(r, BuiltSnapshot(s).0), s)
  {
    hide RowShows, Rendered, FitRows;
    SnapshotSelfContained(s);
    var snap := BuiltSnapshot(s).0;
    FitShows(snap.styles, snap.grid, s.screen);
  }

  /** What an exit event costs a client that is behind: it takes the event's
      number, so the next Delta chains and paints onto rows it never had. Here
      the Delta that painted row 0 is lost, then come the exit event and a Delta
      of row 1: the client shows the old row 0 beside the new row 1. */
  lemma ExitHidesGap(r: ReplicaState, row0: Row, row1: Row, status: ExitStatus)
    requires |r.visible| == r.rows == 2 && r.seqNo == 1 && r.historyBase == 0 && r.historyLen == 0
    requires TruncateRow(row0, r.cols) != r.visible[0]
    ensures var first := Delta(2, 1, 0, 0, None, [], [DirtyRow(0, row0)], r.cursor, r.modes, None);
            var last := Delta(4, 3, 0, 0, None, [], [DirtyRow(1, row1)], r.cursor, r.modes, None);
            var full := AfterDelta(AfterExited(AfterDelta(r, first), 3, status), last);
            var behind := AfterDelta(AfterExited(r, 3, status), last);
            && full.seqNo == behind.seqNo == 4
            && full.visible == [TruncateRow(row0, r.cols), TruncateRow(row1, r.cols)]
            && behind.visible == [r.visible[0], TruncateRow(row1, r.cols)]
            && behind.counters.gaps == r.counters.gaps
  {
    hide TruncateRow;
    OneRowDelta(r, 2, 0, row0);
    OneRowDelta(AfterExited(AfterDelta(r, Delta(2, 1, 0, 0, None, [], [DirtyRow(0, row0)], r.cursor, r.modes, None)), 3, status), 4, 1, row1);
    OneRowDelta(AfterExited(r, 3, status), 4, 1, row1);
  }

  lemma OneRowDelta(r: ReplicaState, number: nat, index: nat, row: Row)
    requires |r.visible| == r.rows && r.historyBase == 0 && r.historyLen == 0 && index < r.rows
    ensures var d := Delta(number, r.seqNo, 0, 0, None, [], [DirtyRow(index, row)], r.cursor, r.modes, None);
            var r' := AfterDelta(r, d);
            && r'.visible == r.visible[index := TruncateRow(row, r.cols)] && r'.seqNo == number
            && r'.counters == r.counters && r'.cols == r.cols && r'.rows == r.rows
            && r'.cursor == r.cursor && r'.modes == r.modes && r'.historyBase == 0 && r'.historyLen == 0
  {
    hide TruncateRow, SetStyles;
    var d := Delta(number, r.seqNo, 0, 0, None, [], [DirtyRow(index, row)], r.cursor, r.modes, None);
    BeforeRowsShape(r, d);
    BeforeRowsRest(r, d);
    assert d.rows[..|d.rows| - 1] == [] && WriteRows(r.visible, r.cols, []) == r.visible;
  }
}
