/** The client's half of the data plane for one Surface: dispatching frames to
    the replica, answering them, and the bounded queue of out-of-band events. */
module DataPlanes {
  import opened Wire
  import opened Replicas
  import opened Systems

  const EVENT_QUEUE_CAP := 1024

  datatype ClientEvent =
    | Connected(buildId: string)
    | Rejected(message: string)
    | Disconnected(reason: string)
    | Rang(surface: nat)
    | Exited(surface: nat, status: ExitStatus)
    | Dropped(surface: nat)
    | Gapped(surface: nat)
    | Failed(code: nat)

  /** What the queue gives up last: no later frame would tell a client of these again. */
  predicate IsLifecycle(e: ClientEvent) {
    e.Connected? || e.Disconnected? || e.Dropped? || e.Exited?
  }

  // ------------------------------------------------------------ the queue

  function FirstDroppable(queue: seq<ClientEvent>): (index: nat)
    ensures index <= |queue|
    ensures forall k :: 0 <= k < index ==> IsLifecycle(queue[k])
    ensures index < |queue| ==> !IsLifecycle(queue[index])
  {
    if queue == [] || !IsLifecycle(queue[0]) then 0 else 1 + FirstDroppable(queue[1..])
  }

  predicate IsRepeatedBell(queue: seq<ClientEvent>, e: ClientEvent) {
    e.Rang? && queue != [] && queue[|queue| - 1] == e
  }

  function AfterPush(queue: seq<ClientEvent>, e: ClientEvent): seq<ClientEvent> {
    if IsRepeatedBell(queue, e) then queue
    else if |queue| < EVENT_QUEUE_CAP then queue + [e]
    else
      var index := FirstDroppable(queue);
      if index < |queue| then queue[..index] + queue[index + 1..] + [e]
      else if IsLifecycle(e) then queue[1..] + [e]
      else queue
  }

  /** The queue after pushing a stream of events onto a drained one. */
  function AfterPushes(events: seq<ClientEvent>): seq<ClientEvent> {
    if events == [] then [] else AfterPush(AfterPushes(events[..|events| - 1]), events[|events| - 1])
  }

  function Lifecycles(events: seq<ClientEvent>): (out: seq<ClientEvent>)
    ensures |out| <= |events|
  {
    if events == [] then []
    else Lifecycles(events[..|events| - 1]) + if IsLifecycle(events[|events| - 1]) then [events[|events| - 1]] else []
  }

  function LastOf<T>(items: seq<T>, n: nat): seq<T> {
    if |items| <= n then items else items[|items| - n..]
  }

  /** `part` picks out some of `whole`, in order, at the indices `at`. */
  ghost predicate PicksAt<T>(part: seq<T>, whole: seq<T>, at: seq<nat>) {
    && |at| == |part|
    && (forall j, k :: 0 <= j < k < |at| ==> at[j] < at[k])
    && (forall k :: 0 <= k < |at| ==> at[k] < |whole| && whole[at[k]] == part[k])
  }

  lemma {:induction false} LifecyclesConcat(a: seq<ClientEvent>, b: seq<ClientEvent>)
    ensures Lifecycles(a + b) == Lifecycles(a) + Lifecycles(b)
  {
    if b == [] {
      assert a + b == a;
    } else {
      LifecyclesConcat(a, b[..|b| - 1]);
      assert (a + b)[..|a + b| - 1] == a + b[..|b| - 1];
    }
  }

  lemma {:induction false} AllLifecycle(events: seq<ClientEvent>)
    requires forall k :: 0 <= k < |events| ==> IsLifecycle(events[k])
    ensures Lifecycles(events) == events
  {
    if events == [] {
    } else {
      AllLifecycle(events[..|events| - 1]);
    }
  }

  /** A queue with something droppable in it holds fewer lifecycle events than entries. */
  lemma DroppableIsExtra(queue: seq<ClientEvent>, index: nat)
    requires index < |queue| && !IsLifecycle(queue[index])
    ensures Lifecycles(queue) == Lifecycles(queue[..index] + queue[index + 1..])
    ensures |Lifecycles(queue)| < |queue|
  {
    hide Lifecycles;
    var before, x, after := queue[..index], queue[index], queue[index + 1..];
    assert queue == before + [x] + after;
    LifecyclesConcat(before + [x], after);
    LifecyclesConcat(before, [x]);
    LifecyclesConcat(before, after);
    SingleLifecycle(x);
    assert Lifecycles(before) + [] == Lifecycles(before);
  }

  lemma SingleLifecycle(e: ClientEvent)
    ensures Lifecycles([e]) == if IsLifecycle(e) then [e] else []
  {
  }

  /** A lifecycle event joins the last ones; any other leaves them. */
  ghost function Joined(lifecycles: seq<ClientEvent>, e: ClientEvent): seq<ClientEvent> {
    if IsLifecycle(e) then LastOf(lifecycles + [e], EVENT_QUEUE_CAP) else lifecycles
  }

  lemma JoinRoom(kept: seq<ClientEvent>, e: ClientEvent)
    requires |Lifecycles(kept)| < EVENT_QUEUE_CAP
    ensures Lifecycles(kept + [e]) == Joined(Lifecycles(kept), e)
  {
    SingleLifecycle(e);
    LifecyclesConcat(kept, [e]);
  }

  lemma RotatedLifecycles(queue: seq<ClientEvent>, e: ClientEvent)
    requires queue != [] && IsLifecycle(e) && forall k :: 0 <= k < |queue| ==> IsLifecycle(queue[k])
    ensures Lifecycles(queue[1..] + [e]) == queue[1..] + [e]
  {
    hide IsLifecycle;
    AllLifecycle(queue[1..] + [e]);
  }

  lemma LastOfFull<T>(items: seq<T>, x: T)
    requires items != []
    ensures LastOf(items + [x], |items|) == items[1..] + [x]
  {
  }

  lemma JoinFull(queue: seq<ClientEvent>, e: ClientEvent)
    requires |queue| == EVENT_QUEUE_CAP && IsLifecycle(e) && forall k :: 0 <= k < |queue| ==> IsLifecycle(queue[k])
    ensures Lifecycles(queue[1..] + [e]) == Joined(Lifecycles(queue), e)
  {
    hide Lifecycles, IsLifecycle, LastOf;
    AllLifecycle(queue);
    RotatedLifecycles(queue, e);
    LastOfFull(queue, e);
  }

  lemma PushInRoom(queue: seq<ClientEvent>, e: ClientEvent)
    requires !IsRepeatedBell(queue, e) && |queue| < EVENT_QUEUE_CAP
    ensures AfterPush(queue, e) == queue + [e]
  {
  }

  lemma PushDropping(queue: seq<ClientEvent>, e: ClientEvent)
    requires !IsRepeatedBell(queue, e) && |queue| >= EVENT_QUEUE_CAP && FirstDroppable(queue) < |queue|
    ensures AfterPush(queue, e) == queue[..FirstDroppable(queue)] + queue[FirstDroppable(queue) + 1..] + [e]
  {
    hide FirstDroppable;
  }

  lemma PushRotating(queue: seq<ClientEvent>, e: ClientEvent)
    requires |queue| >= EVENT_QUEUE_CAP && FirstDroppable(queue) == |queue| && IsLifecycle(e)
    ensures AfterPush(queue, e) == queue[1..] + [e]
  {
    hide FirstDroppable;
  }

  lemma PushNothing(queue: seq<ClientEvent>, e: ClientEvent)
    requires IsRepeatedBell(queue, e) || (|queue| >= EVENT_QUEUE_CAP && FirstDroppable(queue) == |queue| && !IsLifecycle(e))
    ensures AfterPush(queue, e) == queue && !IsLifecycle(e)
  {
    hide FirstDroppable;
  }

  lemma PushLifecycles(queue: seq<ClientEvent>, e: ClientEvent)
    requires |queue| <= EVENT_QUEUE_CAP
    ensures Lifecycles(AfterPush(queue, e)) == Joined(Lifecycles(queue), e)
  {
    hide Lifecycles, Joined, IsLifecycle, AfterPush, IsRepeatedBell;
    var index := FirstDroppable(queue);
    if IsRepeatedBell(queue, e) || (|queue| == EVENT_QUEUE_CAP && index == |queue| && !IsLifecycle(e)) {
      PushNothing(queue, e);
      JoinNothing(Lifecycles(queue), e);
    } else if |queue| < EVENT_QUEUE_CAP {
      PushInRoom(queue, e);
      JoinRoom(queue, e);
    } else if index < |queue| {
      PushDropping(queue, e);
      DroppableIsExtra(queue, index);
      JoinRoom(queue[..index] + queue[index + 1..], e);
    } else {
      PushRotating(queue, e);
      JoinFull(queue, e);
    }
  }

  lemma JoinNothing(lifecycles: seq<ClientEvent>, e: ClientEvent)
    requires !IsLifecycle(e)
    ensures Joined(lifecycles, e) == lifecycles
  {
  }

  lemma PicksAdd<T>(part: seq<T>, whole: seq<T>, x: T, at: seq<nat>)
    requires PicksAt(part, whole, at)
    ensures PicksAt(part + [x], whole + [x], at + [|whole|]) && PicksAt(part, whole + [x], at)
  {
  }

  lemma PicksDrop<T>(part: seq<T>, whole: seq<T>, at: seq<nat>, index: nat)
    requires PicksAt(part, whole, at) && index < |part|
    ensures index < |at| && PicksAt(part[..index] + part[index + 1..], whole, at[..index] + at[index + 1..])
  {
  }

  /** A full queue that takes an event gives up exactly one other. */
  lemma PushDrops(queue: seq<ClientEvent>, e: ClientEvent) returns (index: nat)
    requires AfterPush(queue, e) != queue && AfterPush(queue, e) != queue + [e]
    ensures index < |queue| && AfterPush(queue, e) == queue[..index] + queue[index + 1..] + [e]
  {
    index := if FirstDroppable(queue) < |queue| then FirstDroppable(queue) else 0;
    assert queue[..0] + queue[1..] == queue[1..];
  }

  lemma DropPicks<T>(queue: seq<T>, events: seq<T>, e: T, at: seq<nat>, index: nat)
    requires PicksAt(queue, events, at) && index < |queue|
    ensures index < |at| && PicksAt(queue[..index] + queue[index + 1..] + [e], events + [e], at[..index] + at[index + 1..] + [|events|])
  {
    hide PicksAt;
    PicksDrop(queue, events, at, index);
    PicksAdd(queue[..index] + queue[index + 1..], events, e, at[..index] + at[index + 1..]);
  }

  lemma PushPicks(queue: seq<ClientEvent>, events: seq<ClientEvent>, e: ClientEvent, at: seq<nat>) returns (at': seq<nat>)
    requires PicksAt(queue, events, at)
    ensures PicksAt(AfterPush(queue, e), events + [e], at')
  {
    hide PicksAt, AfterPush;
    PicksAdd(queue, events, e, at);
    if AfterPush(queue, e) == queue {
      at' := at;
    } else if AfterPush(queue, e) == queue + [e] {
      at' := at + [|events|];
    } else {
      var index := PushDrops(queue, e);
      DropPicks(queue, events, e, at, index);
      at' := at[..index] + at[index + 1..] + [|events|];
    }
  }

  lemma PushBounded(queue: seq<ClientEvent>, e: ClientEvent)
    requires |queue| <= EVENT_QUEUE_CAP
    ensures |AfterPush(queue, e)| <= EVENT_QUEUE_CAP
  {
  }

  lemma LastOfLast<T>(items: seq<T>, x: T, n: nat)
    ensures LastOf(LastOf(items, n) + [x], n) == LastOf(items + [x], n)
    ensures LastOf<T>([], n) == []
  {
  }

  lemma PicksNothing()
    ensures PicksAt<ClientEvent>([], [], []) && LastOf<ClientEvent>([], EVENT_QUEUE_CAP) == []
  {
  }

  /** After any stream of pushes since a drain: at most the cap is queued, the
      queue is a subsequence of the stream, and its lifecycle events are exactly
      the last ones pushed, up to the cap. */
  lemma {:induction false} QueueKeepsLifecycles(events: seq<ClientEvent>) returns (at: seq<nat>)
    ensures |AfterPushes(events)| <= EVENT_QUEUE_CAP
    ensures PicksAt(AfterPushes(events), events, at)
    ensures Lifecycles(AfterPushes(events)) == LastOf(Lifecycles(events), EVENT_QUEUE_CAP)
  {
    hide AfterPush, PicksAt, LastOf;
    if events == [] {
      at := [];
      PicksNothing();
    } else {
      var front, last := events[..|events| - 1], events[|events| - 1];
      var at0 := QueueKeepsLifecycles(front);
      assert front + [last] == events;
      assert Lifecycles(events) == if IsLifecycle(last) then Lifecycles(front) + [last] else Lifecycles(front);
      PushLifecycles(AfterPushes(front), last);
      PushBounded(AfterPushes(front), last);
      LastOfLast(Lifecycles(front), last, EVENT_QUEUE_CAP);
      at := PushPicks(AfterPushes(front), front, last, at0);
    }
  }

  /** What a push leaves last in the queue: the event itself, unless it may be
      lost and everything queued may not. */
  lemma PushedLastIff(queue: seq<ClientEvent>, e: ClientEvent)
    requires |queue| <= EVENT_QUEUE_CAP
    ensures var after := AfterPush(queue, e);
            (after != [] && after[|after| - 1] == e) <==>
              !(&& |queue| == EVENT_QUEUE_CAP && !(e.Connected? || e.Disconnected? || e.Dropped? || e.Exited?)
                && forall k :: 0 <= k < |queue| ==>
                     queue[k].Connected? || queue[k].Disconnected? || queue[k].Dropped? || queue[k].Exited?)
  {
    if IsRepeatedBell(queue, e) {
    } else if |queue| < EVENT_QUEUE_CAP {
      PushInRoom(queue, e);
    } else if FirstDroppable(queue) < |queue| {
      PushDropping(queue, e);
    } else if IsLifecycle(e) {
      PushRotating(queue, e);
    } else {
      PushNothing(queue, e);
      assert IsLifecycle(queue[|queue| - 1]);
    }
  }

  /** How many events of a stream tell of the connection, a detach or an exit. */
  function StateCount(events: seq<ClientEvent>): nat {
    if events == [] then 0
    else
      var e := events[|events| - 1];
      StateCount(events[..|events| - 1]) + if e.Connected? || e.Disconnected? || e.Dropped? || e.Exited? then 1 else 0
  }

  lemma {:induction false} StateCountIs(events: seq<ClientEvent>, e: ClientEvent)
    ensures StateCount(events) == |Lifecycles(events)|
    ensures e in events && (e.Connected? || e.Disconnected? || e.Dropped? || e.Exited?) ==> e in Lifecycles(events)
  {
    if events == [] {
    } else {
      StateCountIs(events[..|events| - 1], e);
      assert events == events[..|events| - 1] + [events[|events| - 1]];
    }
  }

  /** No exit, detach or connection event is lost while no more than the cap of
      them are pushed between two drains, whatever else is pushed. */
  lemma StateNeverLost(events: seq<ClientEvent>, e: ClientEvent)
    requires e in events && (e.Connected? || e.Disconnected? || e.Dropped? || e.Exited?)
    requires StateCount(events) <= EVENT_QUEUE_CAP
    ensures e in AfterPushes(events)
  {
    hide AfterPushes, Lifecycles;
    StateCountIs(events, e);
    var at := QueueKeepsLifecycles(events);
    AmongLifecycles(AfterPushes(events), e);
  }

  lemma {:induction false} AmongLifecycles(events: seq<ClientEvent>, e: ClientEvent)
    ensures e in Lifecycles(events) ==> e in events
  {
    if events == [] {
    } else {
      AmongLifecycles(events[..|events| - 1], e);
      assert events == events[..|events| - 1] + [events[|events| - 1]];
    }
  }

  class EventQueue {
    var events: seq<ClientEvent>

    constructor ()
      ensures events == []
    {
      events := [];
    }

    method Push(e: ClientEvent)
      requires |events| <= EVENT_QUEUE_CAP
      modifies this
      ensures events == AfterPush(old(events), e) && |events| <= EVENT_QUEUE_CAP
    {
      var push := !IsRepeatedBell(events, e);
      if push && |events| >= EVENT_QUEUE_CAP {
        var index := 0;
        while index < |events| && IsLifecycle(events[index])
          invariant index <= |events|
          invariant forall k :: 0 <= k < index ==> IsLifecycle(events[k])
        {
          index := index + 1;
        }
        assert index == FirstDroppable(events);
        if index < |events| {
          events := events[..index] + events[index + 1..];
        } else if IsLifecycle(e) {
          events := events[1..];
        } else {
          push := false;
        }
      }
      if push {
        events := events + [e];
      }
    }

    method Take() returns (taken: seq<ClientEvent>)
      modifies this
      ensures taken == old(events) && events == []
    {
      taken := events;
      events := [];
    }
  }

  // ------------------------------------------------------------ dispatch

  /** What arrives on the connection: a frame of the Surface, or a message about
      the connection; `StrayMsg` is one only a client may send. */
  datatype ServerMsg =
    | FrameMsg(frame: Frame)
    | HelloAckMsg(buildId: string)
    | RejectMsg(message: string)
    | DataErrorMsg(code: nat)
    | StrayMsg

  datatype DispatchError = RejectedError(message: string) | UnexpectedMessage

  /** The client after one frame, keeping its acks to itself unless `autoAck`. */
  function Answered(link: Link, frame: Frame, autoAck: bool): Link {
    var out := Dispatched(link, frame);
    if autoAck || (frame.DeltaMsg? && IsGap(link.replica, frame.delta)) then out else out.(up := link.up)
  }

  /** The events one frame queues. */
  function EventsOf(surface: nat, r: ReplicaState, frame: Frame): seq<ClientEvent> {
    match frame
    case DeltaMsg(d) => if IsGap(r, d) then [Gapped(surface)] else []
    case ExitedMsg(_, status) => [Exited(surface, status)]
    case BellMsg => [Rang(surface)]
    case DetachedMsg => [Dropped(surface)]
    case _ => []
  }

  function Queued(queue: seq<ClientEvent>, events: seq<ClientEvent>): seq<ClientEvent> {
    if events == [] then queue else AfterPush(queue, events[0])
  }

  // ------------------------------------------------------------ what a client hears

  /** The events a client queues while it takes all that is on its way down. */
  function EventsOn(surface: nat, link: Link): seq<ClientEvent>
    decreases |link.down|
  {
    if link.down == [] then []
    else EventsOf(surface, link.replica, link.down[0].frame) + EventsOn(surface, PoppedDown(link))
  }

  /** The exits, detaches and bells a stream of frames tells of. */
  function Told(surface: nat, down: seq<Sent>): seq<ClientEvent> {
    if down == [] then []
    else (match down[0].frame
          case ExitedMsg(_, status) => [Exited(surface, status)]
          case DetachedMsg => [Dropped(surface)]
          case BellMsg => [Rang(surface)]
          case _ => []) + Told(surface, down[1..])
  }

  /** The streams' chains hold, so no Gap is among the events. */
  ghost predicate Chained(link: Link)
    decreases |link.down|
  {
    link.down == []
    || ((link.down[0].frame.DeltaMsg? ==> link.down[0].frame.delta.sinceSeq == link.replica.seqNo) && Chained(PoppedDown(link)))
  }

  /** A client hears exactly what its frames tell of, in order, once each. */
  lemma {:induction false} HearsWhatIsTold(surface: nat, link: Link)
    requires Chained(link)
    ensures EventsOn(surface, link) == Told(surface, link.down)
    decreases |link.down|
  {
    if link.down == [] {
    } else {
      hide AfterSnapshot, AfterDelta, AfterPage, Dispatched;
      HearsWhatIsTold(surface, PoppedDown(link));
    }
  }

  /** A Gap is remembered until a Snapshot heals it. */
  function GapAfter(pending: bool, r: ReplicaState, frame: Frame): bool {
    match frame
    case SnapshotMsg(_) => false
    case DeltaMsg(d) => pending || IsGap(r, d)
    case _ => pending
  }

  class DataPlaneCore {
    const surface: nat
    const autoAck: bool
    const replica: Replica
    const queue: EventQueue
    var attached: Option<AttachMode>
    var outbox: seq<UpMsg>
    var gapPending: bool

    ghost predicate Valid()
      reads this, queue
    {
      |queue.events| <= EVENT_QUEUE_CAP
    }

    /** This client as one end of its link, nothing on the way down. */
    ghost function State(): Link
      reads this, replica
    {
      Link(replica.State(), attached, [], outbox)
    }

    constructor (surface: nat, cap: nat, autoAck: bool)
      ensures Valid() && fresh(replica) && fresh(queue) && this.autoAck == autoAck && this.surface == surface
      ensures State() == Link(NewReplica(cap), None, [], []) && !gapPending && queue.events == []
    {
      this.surface, this.autoAck := surface, autoAck;
      replica := new Replica(cap);
      queue := new EventQueue();
      attached, outbox, gapPending := None, [], false;
    }

    method AutoAck(seqNo: nat)
      modifies this`outbox
      ensures outbox == if autoAck then old(outbox) + [AckMsg(seqNo)] else old(outbox)
    {
      if !autoAck {
        return;
      }
      outbox := outbox + [AckMsg(seqNo)];
    }

    /** Asks for a Snapshot after a Gap, counting the Resync first. */
    method RequestSnapshot()
      modifies this`outbox, replica
      ensures outbox == old(outbox) + [AttachMsg(if attached.Some? then attached.value else Active)]
      ensures replica.State() == old(replica.State()).(counters := old(replica.counters).(resyncs := old(replica.counters).resyncs + 1))
    {
      var mode := if attached.Some? then attached.value else Active;
      replica.counters := replica.counters.(resyncs := replica.counters.resyncs + 1);
      outbox := outbox + [AttachMsg(mode)];
    }

    /** Handles one decoded message: frames are applied and answered, the rest
        only queue an event or fail. */
    method Dispatch(msg: ServerMsg) returns (error: Option<DispatchError>)
      requires Valid()
      modifies this, replica, queue
      ensures Valid()
      ensures State() == if msg.FrameMsg? then Answered(old(State()), msg.frame, autoAck) else old(State())
      ensures queue.events == match msg
        case FrameMsg(frame) => Queued(old(queue.events), EventsOf(surface, old(replica.State()), frame))
        case HelloAckMsg(buildId) => AfterPush(old(queue.events), Connected(buildId))
        case RejectMsg(message) => AfterPush(old(queue.events), Rejected(message))
        case DataErrorMsg(code) => AfterPush(old(queue.events), Failed(code))
        case StrayMsg => old(queue.events)
      ensures gapPending == if msg.FrameMsg? then GapAfter(old(gapPending), old(replica.State()), msg.frame) else old(gapPending)
      ensures error == match msg
        case RejectMsg(message) => Some(RejectedError(message))
        case StrayMsg => Some(UnexpectedMessage)
        case _ => None
    {
      hide AfterPush, Answered, GapAfter, EventsOf, Queued;
      error := None;
      match msg
      case FrameMsg(frame) => TakeFrame(frame);
      case HelloAckMsg(buildId) =>
        queue.Push(Connected(buildId));
      case RejectMsg(message) =>
        queue.Push(Rejected(message));
        error := Some(RejectedError(message));
      case DataErrorMsg(code) =>
        queue.Push(Failed(code));
      case StrayMsg =>
        error := Some(UnexpectedMessage);
    }

    method TakeFrame(frame: Frame)
      requires Valid()
      modifies this, replica, queue
      ensures Valid() && State() == Answered(old(State()), frame, autoAck)
      ensures queue.events == Queued(old(queue.events), EventsOf(surface, old(replica.State()), frame))
      ensures gapPending == GapAfter(old(gapPending), old(replica.State()), frame)
    {
      hide AfterSnapshot, AfterDelta, AfterPage, AfterPush;
      match frame
      case SnapshotMsg(snap) =>
        replica.ApplySnapshot(snap);
        gapPending := false;
        AutoAck(snap.seqNo);
      case DeltaMsg(d) =>
        var gap := replica.ApplyDelta(d);
        if gap {
          gapPending := true;
          queue.Push(Gapped(surface));
          RequestSnapshot();
        } else {
          AutoAck(d.seqNo);
        }
      case HistoryMsg(page) =>
        replica.ApplyHistoryPage(page);
      case ExitedMsg(seqNo, status) =>
        replica.ApplyExited(seqNo, status);
        queue.Push(Exited(surface, status));
        AutoAck(seqNo);
      case BellMsg =>
        queue.Push(Rang(surface));
      case DetachedMsg =>
        attached := None;
        queue.Push(Dropped(surface));
    }
  }
}
