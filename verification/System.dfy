/** The whole system as steps: one Surface, any number of clients, and a
    reliable first-in first-out channel each way per client. */
module Systems {
  import opened Wire
  import opened Engine
  import opened Publishing
  import opened Surfaces
  import opened Replicas

  /** A frame on its way down, with the mode its subscription had when it was sent. */
  datatype Sent = Sent(frame: Frame, mode: AttachMode)

  /** One client: its replica, the attachment it remembers, and both channels. */
  datatype Link = Link(replica: ReplicaState, attached: Option<AttachMode>, down: seq<Sent>, up: seq<UpMsg>)

  /** `handed` records the sequence numbers of the Deltas handed to each subscription. */
  datatype System = System(server: SurfaceState, links: map<ClientId, Link>, handed: map<ClientId, set<nat>>)

  datatype Event =
    | Connect(client: ClientId, cap: nat)
    | Attach(client: ClientId, mode: AttachMode, now: nat)
    | SwitchMode(client: ClientId, mode: AttachMode)
    | Detach(client: ClientId)
    | Feed(screen: Screen, damage: Damage, titled: bool, bell: bool)
    | Resize(size: Size, screen: Screen)
    | Reset(screen: Screen)
    | Exit(status: ExitStatus)
    | FetchHistory(from: nat, count: nat)
    | Flush(now: nat)
    | DeliverDown(client: ClientId)
    | DeliverUp(client: ClientId, now: nat)

  // ------------------------------------------------------------ the client

  /** What a client does with one frame: apply it, and answer. */
  function Dispatched(link: Link, frame: Frame): (out: Link)
    ensures out.down == link.down
  {
    match frame
    case SnapshotMsg(snap) =>
      link.(replica := AfterSnapshot(link.replica, snap), up := link.up + [AckMsg(snap.seqNo)])
    case DeltaMsg(d) =>
      if IsGap(link.replica, d) then
        var counted := AfterDelta(link.replica, d);
        link.(replica := counted.(counters := counted.counters.(resyncs := counted.counters.resyncs + 1)),
              up := link.up + [AttachMsg(if link.attached.Some? then link.attached.value else Active)])
      else link.(replica := AfterDelta(link.replica, d), up := link.up + [AckMsg(d.seqNo)])
    case HistoryMsg(page) => link.(replica := AfterPage(link.replica, page))
    case ExitedMsg(seqNo, status) =>
      link.(replica := AfterExited(link.replica, seqNo, status), up := link.up + [AckMsg(seqNo)])
    case BellMsg => link
    case DetachedMsg => link.(attached := None)
  }

  function PoppedDown(link: Link): (out: Link)
    requires link.down != []
    ensures out.down == link.down[1..]
  {
    Dispatched(link.(down := link.down[1..]), link.down[0].frame)
  }

  /** The client once everything on its way down has been applied. */
  function Drained(link: Link): Link
    decreases |link.down|
  {
    if link.down == [] then link else Drained(PoppedDown(link))
  }

  // ------------------------------------------------------------ the server

  ghost function OnAttach(s: SurfaceState, client: ClientId, mode: AttachMode, now: nat): SurfaceState {
    var p := s.publisher;
    s.(publisher := p.(subs := p.subs[client :=
      if client in p.subs then Resynced(p.subs[client], mode, now) else NewSubscription(p.rows, mode, now)]))
  }

  ghost function WithSub(s: SurfaceState, client: ClientId, sub: Subscription): SurfaceState {
    s.(publisher := s.publisher.(subs := s.publisher.subs[client := sub]))
  }

  ghost function OnUp(s: SurfaceState, client: ClientId, msg: UpMsg, now: nat): SurfaceState {
    match msg
    case AckMsg(seqNo) =>
      if client in s.publisher.subs
      then WithSub(s, client, Acked(s.publisher.subs[client], seqNo, now, s.publisher.config.ackWindow))
      else s
    case AttachMsg(mode) => OnAttach(s, client, mode, now)
  }

  // ------------------------------------------------------------ the channels

  function ModeIn(subs: map<ClientId, Subscription>, client: ClientId): AttachMode {
    if client in subs then subs[client].mode else Active
  }

  function Pushed(links: map<ClientId, Link>, client: ClientId, sent: Sent): map<ClientId, Link> {
    if client in links then links[client := links[client].(down := links[client].down + [sent])] else links
  }

  /** The frames put on their channels in order, Passive ones stripped. */
  function Posted(links: map<ClientId, Link>, subs: map<ClientId, Subscription>, frames: seq<ClientFrame>): map<ClientId, Link> {
    if frames == [] then links
    else
      var last := frames[|frames| - 1];
      var mode := ModeIn(subs, last.client);
      Pushed(Posted(links, subs, frames[..|frames| - 1]), last.client, Sent(Stripped(last.frame, mode), mode))
  }

  /** The exit event goes to every attached client. */
  ghost function Broadcast(links: map<ClientId, Link>, subs: map<ClientId, Subscription>, frame: Frame): map<ClientId, Link> {
    map c | c in links ::
      if c in subs then links[c].(down := links[c].down + [Sent(frame, subs[c].mode)]) else links[c]
  }

  /** The Delta sequence numbers among `frames` for `client`. */
  function DeltaSeqs(frames: seq<ClientFrame>, client: ClientId): set<nat> {
    set k | 0 <= k < |frames| && frames[k].client == client && frames[k].frame.DeltaMsg? :: frames[k].frame.delta.seqNo
  }

  ghost function HandedAfter(sys: System, frames: seq<ClientFrame>): map<ClientId, set<nat>> {
    map c | c in sys.handed :: sys.handed[c] + DeltaSeqs(frames, c)
  }

  // ------------------------------------------------------------ steps

  ghost predicate Enabled(sys: System, e: Event) {
    match e
    case Connect(c, _) => c !in sys.links
    case Attach(c, _, _) => c in sys.links
    case SwitchMode(_, _) => true
    case Detach(c) => c in sys.server.publisher.subs
    case Feed(screen, damage, _, _) => Advances(sys.server.screen, screen, damage)
    case Resize(size, screen) => screen.Valid() && Size(screen.cols, screen.rows) == AtLeastOne(size)
    case Reset(screen) =>
      screen.Valid() && screen.cols == sys.server.screen.cols && screen.rows == sys.server.screen.rows
    case Exit(_) => true
    case FetchHistory(_, _) => true
    case Flush(_) => true
    case DeliverDown(c) => c in sys.links && sys.links[c].down != []
    case DeliverUp(c, _) => c in sys.links && sys.links[c].up != []
  }

  ghost function AfterFlush(sys: System, now: nat): System
    requires sys.server.screen.Valid()
  {
    var (server, frames) := Flushed(sys.server, now);
    System(server, Posted(sys.links, server.publisher.subs, frames), HandedAfter(sys, frames))
  }

  ghost function Next(sys: System, e: Event): System
    requires Enabled(sys, e) && sys.server.screen.Valid()
  {
    var s, links := sys.server, sys.links;
    match e
    case Connect(c, cap) => sys.(links := links[c := Link(NewReplica(cap), None, [], [])])
    case Attach(c, mode, now) =>
      sys.(server := OnAttach(s, c, mode, now), links := links[c := links[c].(attached := Some(mode))],
           handed := if c in s.publisher.subs then sys.handed else sys.handed[c := {}])
    case SwitchMode(c, mode) =>
      if c in s.publisher.subs then sys.(server := WithSub(s, c, WithMode(s.publisher.subs[c], mode))) else sys
    case Detach(c) =>
      sys.(server := s.(publisher := s.publisher.(subs := s.publisher.subs - {c})),
           links := Pushed(links, c, Sent(DetachedMsg, Active)))
    case Feed(screen, damage, titled, bell) => sys.(server := AfterFeed(s, screen, damage, titled, bell))
    case Resize(size, screen) => sys.(server := AfterResize(s, size, screen))
    case Reset(screen) => sys.(server := AfterReset(s, screen))
    case Exit(status) =>
      sys.(server := AfterExit(s, status), links := Broadcast(links, s.publisher.subs, ExitedMsg(s.seqNo + 1, status)))
    case FetchHistory(from, count) => sys.(server := AfterHistory(s, HistoryLines(s.screen, from, count)))
    case Flush(now) => AfterFlush(sys, now)
    case DeliverDown(c) => sys.(links := links[c := PoppedDown(links[c])])
    case DeliverUp(c, now) =>
      sys.(server := OnUp(s, c, links[c].up[0], now), links := links[c := links[c].(up := links[c].up[1..])],
           handed := if links[c].up[0].AttachMsg? && c !in s.publisher.subs then sys.handed[c := {}] else sys.handed)
  }

  ghost predicate Initial(sys: System) {
    && sys.server.screen.Valid()
    && (exists config :: sys.server == NewSurface(sys.server.screen, config))
    && sys.links == map[] && sys.handed == map[]
  }
}
