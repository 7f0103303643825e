/** Per-Surface fan-out: what each subscription has pending, and what each one
    is owed at a flush. Instants and durations are naturals. */
module Publishing {
  import opened Wire
  import opened Engine
  import opened Sorting

  type ClientId = nat

  datatype PublisherConfig = PublisherConfig(minInterval: nat, ackWindow: nat, slowClientSnapshotAfter: nat)

  const DEFAULT_CONFIG := PublisherConfig(8_333_333, 4, 3_000_000_000)

  /** What a subscription has still to be told of: flags, never content. */
  datatype Coalesced = Coalesced(
    dirty: DirtySet, cursor: bool, modes: bool, title: bool, bell: bool, history: bool, resized: Option<Size>)
  {
    /** Something other than a bell is pending. */
    predicate HasState() {
      !dirty.IsEmpty() || cursor || modes || title || history || resized.Some?
    }

    predicate IsEmpty() { !HasState() && !bell }

    function Clear(): Coalesced { Coalesced(dirty.Clear(), false, false, false, false, false, None) }
  }

  datatype Subscription = Subscription(
    mode: AttachMode, lastSent: nat, lastAcked: nat, pending: Coalesced, needsSnapshot: bool,
    stalledSince: Option<nat>, lastAckAt: nat, stylesGeneration: nat, stylesSent: nat)
  {
    predicate IsOwed() { needsSnapshot || !pending.IsEmpty() }

    predicate IsWindowBlocked(ackWindow: nat) {
      (if lastSent > lastAcked then lastSent - lastAcked else 0) >= ackWindow
    }
  }

  datatype EmissionKind =
    | SnapshotKind
    | DeltaKind(dirty: DirtySet, title: bool, resized: Option<Size>, stylesFrom: nat, stylesGeneration: nat)
    | BellOnly

  datatype Emission = Emission(client: ClientId, mode: AttachMode, kind: EmissionKind, since: nat, bell: bool)

  function ByClient(e: Emission): nat { e.client }

  datatype PublisherState = PublisherState(
    config: PublisherConfig, subs: map<ClientId, Subscription>, rows: nat, lastFlush: Option<nat>)

  /** `now - then`, zero when the clock ran backwards. */
  function Elapsed(now: nat, since: nat): nat { if now >= since then now - since else 0 }

  // ------------------------------------------------------------ attachment

  function NewSubscription(rows: nat, mode: AttachMode, now: nat): Subscription {
    Subscription(mode, 0, 0,
                 Coalesced(NewDirtySet(rows).SetAll(), true, true, true, false, true, None),
                 true, None, now, 0, 0)
  }

  function Resynced(sub: Subscription, mode: AttachMode, now: nat): Subscription {
    sub.(mode := mode, needsSnapshot := true, pending := sub.pending.Clear(), stalledSince := None, lastAckAt := now)
  }

  function WithMode(sub: Subscription, mode: AttachMode): Subscription {
    if sub.mode == mode then sub
    else if mode == Active then Forced(sub).(mode := mode)
    else sub.(mode := mode)
  }

  function Acked(sub: Subscription, seqNo: nat, now: nat, ackWindow: nat): Subscription {
    var acked := if seqNo > sub.lastAcked
      then sub.(lastAcked := if seqNo < sub.lastSent then seqNo else sub.lastSent) else sub;
    var heard := acked.(lastAckAt := now);
    if heard.IsWindowBlocked(ackWindow) then heard else heard.(stalledSince := None)
  }

  // ------------------------------------------------------------ recording

  /** The flags one engine change raises. */
  datatype Marks = Marks(cursor: bool, modes: bool, title: bool, bell: bool, history: bool)

  function Marked(p: Coalesced, m: Marks): Coalesced {
    p.(cursor := p.cursor || m.cursor, modes := p.modes || m.modes, title := p.title || m.title,
       bell := p.bell || m.bell, history := p.history || m.history)
  }

  function Damaged(p: Coalesced, damage: Damage): Coalesced {
    match damage
    case Full => p.(dirty := p.dirty.SetAll())
    case Rows(set_) => if set_.IsEmpty() then p else p.(dirty := p.dirty.UnionWith(set_))
  }

  function PendingResize(p: Coalesced, size: Size): Coalesced {
    p.(dirty := p.dirty.Resize(size.rows).SetAll(), resized := Some(size), cursor := true, modes := true, history := true)
  }

  function Forced(sub: Subscription): Subscription {
    sub.(needsSnapshot := true, pending := sub.pending.(dirty := sub.pending.dirty.SetAll()))
  }

  function EventSent(sub: Subscription, seqNo: nat): Subscription {
    sub.(lastSent := if sub.lastSent >= seqNo then sub.lastSent else seqNo)
  }

  function StylesRecorded(sub: Subscription, generation: nat, sent: nat): Subscription {
    sub.(stylesGeneration := generation, stylesSent := sent)
  }

  function Damager(damage: Damage): Subscription -> Subscription {
    (sub: Subscription) => sub.(pending := Damaged(sub.pending, damage))
  }

  function Marker(marks: Marks): Subscription -> Subscription {
    (sub: Subscription) => sub.(pending := Marked(sub.pending, marks))
  }

  function Resizer(size: Size): Subscription -> Subscription {
    (sub: Subscription) => sub.(pending := PendingResize(sub.pending, size))
  }

  function EventNoter(seqNo: nat): Subscription -> Subscription {
    (sub: Subscription) => EventSent(sub, seqNo)
  }

  /** Every subscription changed by `f`. */
  ghost function Mapped(p: PublisherState, f: Subscription -> Subscription): PublisherState {
    p.(subs := map c | c in p.subs :: f(p.subs[c]))
  }

  // ------------------------------------------------------------ flushing

  predicate HasPending(p: PublisherState) {
    exists c :: c in p.subs && p.subs[c].IsOwed()
  }

  predicate IsDue(p: PublisherState, now: nat) {
    p.lastFlush.None? || Elapsed(now, p.lastFlush.value) >= p.config.minInterval
  }

  predicate ShouldFlush(p: PublisherState, now: nat) {
    HasPending(p) && (IsDue(p, now) || exists c :: c in p.subs && p.subs[c].needsSnapshot)
  }

  /** A subscription living in an older style generation is owed a Snapshot. */
  function StaleForced(sub: Subscription, generation: nat): Subscription {
    if sub.stylesGeneration != generation then Forced(sub) else sub
  }

  /** The stall clock of a blocked subscription, started now if it was off. */
  function StalledAt(sub: Subscription, now: nat): nat {
    if sub.stalledSince.Some? then sub.stalledSince.value else now
  }

  function SnapshotSent(sub: Subscription, now: nat, seqNo: nat): Subscription {
    sub.(needsSnapshot := false, pending := sub.pending.Clear(), lastSent := seqNo,
         lastAcked := if seqNo >= 1 then seqNo - 1 else 0, stalledSince := None, lastAckAt := now)
  }

  function DeltaSent(sub: Subscription, rows: nat, seqNo: nat): Subscription {
    var taken := if sub.mode == Active then sub.(pending := sub.pending.(dirty := NewDirtySet(rows))) else sub;
    taken.(pending := taken.pending.Clear(), lastSent := seqNo, stalledSince := None)
  }

  function DeltaOf(sub: Subscription): EmissionKind {
    DeltaKind(if sub.mode == Active then sub.pending.dirty else NewDirtySet(0),
              sub.pending.title, sub.pending.resized, sub.stylesSent, sub.stylesGeneration)
  }

  /** What one subscription becomes at a flush, and what it is owed. */
  function FlushedOne(c: ClientId, sub0: Subscription, config: PublisherConfig, rows: nat, now: nat, seqNo: nat, generation: nat)
    : (Subscription, Option<Emission>)
  {
    var sub := StaleForced(sub0, generation);
    var bell := sub.pending.bell;
    if !sub.IsOwed() then (sub, None)
    else if !sub.needsSnapshot && sub.IsWindowBlocked(config.ackWindow) && Elapsed(now, StalledAt(sub, now)) < config.slowClientSnapshotAfter then
      var stalled := sub.(stalledSince := Some(StalledAt(sub, now)), pending := sub.pending.(bell := false));
      (stalled, if bell then Some(Emission(c, sub.mode, BellOnly, sub.lastSent, true)) else None)
    else if sub.needsSnapshot || sub.IsWindowBlocked(config.ackWindow) then
      (SnapshotSent(sub, now, seqNo), Some(Emission(c, sub.mode, SnapshotKind, sub.lastSent, bell)))
    else
      (DeltaSent(sub, rows, seqNo), Some(Emission(c, sub.mode, DeltaOf(sub), sub.lastSent, bell)))
  }

  /** The flush of `c`'s subscription in publisher `p`. */
  function FlushedSub(p: PublisherState, c: ClientId, now: nat, seqNo: nat, generation: nat): (Subscription, Option<Emission>)
    requires c in p.subs
  {
    FlushedOne(c, p.subs[c], p.config, p.rows, now, seqNo, generation)
  }

  ghost function FlushedSubs(p: PublisherState, now: nat, seqNo: nat, generation: nat): map<ClientId, Subscription> {
    map c | c in p.subs :: FlushedSub(p, c, now, seqNo, generation).0
  }

  ghost function FlushedState(p: PublisherState, now: nat, seqNo: nat, generation: nat): PublisherState {
    p.(subs := FlushedSubs(p, now, seqNo, generation), lastFlush := Some(now))
  }

  /** What each client is owed at a flush. */
  ghost function Owed(p: PublisherState, now: nat, seqNo: nat, generation: nat): (owed: map<ClientId, Option<Emission>>)
    ensures Labelled(owed)
  {
    map c | c in p.subs :: FlushedSub(p, c, now, seqNo, generation).1
  }

  ghost predicate Labelled(owed: map<ClientId, Option<Emission>>) {
    forall c :: c in owed && owed[c].Some? ==> owed[c].value.client == c
  }

  /** What the first `n` clients of `ids` are owed, in that order. */
  ghost function Collected(owed: map<ClientId, Option<Emission>>, ids: seq<ClientId>, n: nat): seq<Emission>
    requires n <= |ids| && forall c :: c in ids ==> c in owed
  {
    if n == 0 then []
    else Collected(owed, ids, n - 1) + if owed[ids[n - 1]].Some? then [owed[ids[n - 1]].value] else []
  }

  /** A number above every member. */
  ghost function Above(clients: set<ClientId>): (bound: nat)
    ensures forall c :: c in clients ==> c < bound
  {
    if clients == {} then 0
    else
      var c :| c in clients;
      var rest := Above(clients - {c});
      assert forall d :: d in clients ==> d == c || d in clients - {c};
      if c < rest then rest else c + 1
  }

  /** Client ids in ascending order. */
  ghost function SortedIds(clients: set<ClientId>): (ids: seq<ClientId>)
    ensures forall c :: c in ids <==> c in clients
    ensures forall j, k :: 0 <= j < k < |ids| ==> ids[j] < ids[k]
  {
    Ascending(clients, Above(clients))
  }

  /** The frames a flush asks for, in ascending client order. */
  ghost function Emissions(p: PublisherState, now: nat, seqNo: nat, generation: nat): seq<Emission> {
    var ids := SortedIds(p.subs.Keys);
    Collected(Owed(p, now, seqNo, generation), ids, |ids|)
  }

  lemma {:induction false} CollectedMembers(owed: map<ClientId, Option<Emission>>, ids: seq<ClientId>, n: nat)
    requires n <= |ids| && Labelled(owed) && forall c :: c in ids ==> c in owed
    ensures forall e :: e in Collected(owed, ids, n) <==> e.client in ids[..n] && owed[e.client] == Some(e)
  {
    if n == 0 {
    } else {
      assert ids[..n] == ids[..n - 1] + [ids[n - 1]];
      CollectedMembers(owed, ids, n - 1);
    }
  }

  lemma AscendPlus(front: seq<Emission>, last: Emission)
    requires SortedBy(front, ByClient) && forall e :: e in front ==> e.client < last.client
    ensures SortedBy(front + [last], ByClient)
  {
  }

  /** Emissions follow the ids they are taken for. */
  lemma {:induction false} CollectedAscend(owed: map<ClientId, Option<Emission>>, ids: seq<ClientId>, n: nat)
    requires n <= |ids| && Labelled(owed) && forall c :: c in ids ==> c in owed
    requires forall j, k :: 0 <= j < k < |ids| ==> ids[j] < ids[k]
    ensures SortedBy(Collected(owed, ids, n), ByClient)
  {
    if n == 0 {
    } else {
      CollectedAscend(owed, ids, n - 1);
      CollectedMembers(owed, ids, n - 1);
      var front, next := Collected(owed, ids, n - 1), owed[ids[n - 1]];
      if next.Some? {
        forall e | e in front
          ensures e.client < ids[n - 1]
        {
        }
        AscendPlus(front, next.value);
      }
    }
  }

  /** A list names each member of a set once. */
  ghost predicate Lists(ids: seq<ClientId>, clients: set<ClientId>) {
    && (forall c :: c in ids <==> c in clients)
    && (forall j, k :: 0 <= j < k < |ids| ==> ids[j] != ids[k])
  }

  /** Two lists of the same clients collect the same emissions. */
  lemma SameCollected(owed: map<ClientId, Option<Emission>>, a: seq<ClientId>, b: seq<ClientId>)
    requires Labelled(owed) && (forall c :: c in a <==> c in owed) && (forall c :: c in b <==> c in owed)
    ensures SameMembers(Collected(owed, a, |a|), Collected(owed, b, |b|))
  {
    hide Collected;
    CollectedMembers(owed, a, |a|);
    CollectedMembers(owed, b, |b|);
    assert a[..|a|] == a && b[..|b|] == b;
  }

  lemma SortKeepsMembers(items: seq<Emission>)
    ensures SameMembers(SortBy(items, ByClient), items)
  {
    hide SortBy;
  }

  lemma SameTransitive(a: seq<Emission>, b: seq<Emission>, c: seq<Emission>)
    requires SameMembers(a, b) && SameMembers(b, c)
    ensures SameMembers(a, c)
  {
  }

  /** Whatever order the clients are visited in, sorting gives the one list. */
  lemma VisitOrderIrrelevant(owed: map<ClientId, Option<Emission>>, visited: seq<ClientId>)
    requires Labelled(owed) && Lists(visited, owed.Keys)
    ensures var ids := SortedIds(owed.Keys);
            SortBy(Collected(owed, visited, |visited|), ByClient) == Collected(owed, ids, |ids|)
  {
    hide Collected, SortBy, SameMembers, SortedBy, DistinctBy;
    var ids := SortedIds(owed.Keys);
    var found, sorted := Collected(owed, visited, |visited|), Collected(owed, ids, |ids|);
    CollectedDistinct(owed, visited, |visited|);
    CollectedAscend(owed, ids, |ids|);
    SortSorts(found, ByClient);
    SortKeepsMembers(found);
    SameCollected(owed, visited, ids);
    SameTransitive(SortBy(found, ByClient), found, sorted);
    SortedUnique(SortBy(found, ByClient), sorted, ByClient);
  }

  /** A map in which the first `k` ids of a list hold their new values. */
  ghost function Overlaid<V>(before: map<ClientId, V>, after: map<ClientId, V>, ids: seq<ClientId>, k: nat): map<ClientId, V>
    requires k <= |ids| && forall c :: c in ids ==> c in after
  {
    if k == 0 then before else Overlaid(before, after, ids, k - 1)[ids[k - 1] := after[ids[k - 1]]]
  }

  lemma {:induction false} OverlaidAt<V>(before: map<ClientId, V>, after: map<ClientId, V>, ids: seq<ClientId>, k: nat)
    requires before.Keys == after.Keys && Lists(ids, after.Keys) && k <= |ids|
    ensures var m := Overlaid(before, after, ids, k);
            && m.Keys == after.Keys
            && forall j :: 0 <= j < |ids| ==> m[ids[j]] == if j < k then after[ids[j]] else before[ids[j]]
  {
    if k == 0 {
    } else {
      OverlaidAt(before, after, ids, k - 1);
    }
  }

  lemma OverlaidNone<V>(before: map<ClientId, V>, after: map<ClientId, V>, ids: seq<ClientId>)
    requires Lists(ids, after.Keys)
    ensures (forall c :: c in ids ==> c in after) && Overlaid(before, after, ids, 0) == before
  {
  }

  /** The next id of a list still holds its old value. */
  lemma OverlaidNext<V>(before: map<ClientId, V>, after: map<ClientId, V>, ids: seq<ClientId>, k: nat)
    requires before.Keys == after.Keys && Lists(ids, after.Keys) && k < |ids|
    ensures (forall c :: c in ids ==> c in after) && ids[k] in before
    ensures var m := Overlaid(before, after, ids, k);
            && ids[k] in m && m[ids[k]] == before[ids[k]]
            && Overlaid(before, after, ids, k + 1) == m[ids[k] := after[ids[k]]]
  {
    OverlaidAt(before, after, ids, k);
  }

  lemma OverlaidAll<V>(before: map<ClientId, V>, after: map<ClientId, V>, ids: seq<ClientId>)
    requires before.Keys == after.Keys && Lists(ids, after.Keys)
    ensures Overlaid(before, after, ids, |ids|) == after
  {
    OverlaidAt(before, after, ids, |ids|);
    var m := Overlaid(before, after, ids, |ids|);
    forall c | c in after
      ensures m[c] == after[c]
    {
      var j :| 0 <= j < |ids| && ids[j] == c;
    }
  }

  lemma {:induction false} CollectedDistinct(owed: map<ClientId, Option<Emission>>, ids: seq<ClientId>, n: nat)
    requires n <= |ids| && Labelled(owed) && forall c :: c in ids ==> c in owed
    requires forall j, k :: 0 <= j < k < |ids| ==> ids[j] != ids[k]
    ensures DistinctBy(Collected(owed, ids, n), ByClient)
  {
    if n == 0 {
    } else {
      CollectedDistinct(owed, ids, n - 1);
      CollectedMembers(owed, ids, n - 1);
      var front := Collected(owed, ids, n - 1);
      forall k | 0 <= k < |front|
        ensures front[k].client != ids[n - 1]
      {
        assert front[k] in front;
      }
    }
  }

  // ------------------------------------------------------------ the object

  class Publisher {
    const config: PublisherConfig
    var subs: map<ClientId, Subscription>
    var rows: nat
    var lastFlush: Option<nat>

    ghost function State(): PublisherState
      reads this
    {
      PublisherState(config, subs, rows, lastFlush)
    }

    constructor (config: PublisherConfig, rows: nat)
      ensures State() == PublisherState(config, map[], rows, None)
    {
      this.config, subs, this.rows, lastFlush := config, map[], rows, None;
    }

    method Attach(client: ClientId, mode: AttachMode, now: nat) returns (isNew: bool)
      modifies this`subs
      ensures isNew == (client !in old(subs))
      ensures subs == if isNew then old(subs)[client := NewSubscription(rows, mode, now)] else old(subs)
    {
      if client in subs {
        return false;
      }
      var pending := Coalesced(NewDirtySet(rows), false, false, false, false, false, None);
      pending := pending.(dirty := pending.dirty.SetAll(), cursor := true, modes := true, title := true, history := true);
      subs := subs[client := Subscription(mode, 0, 0, pending, true, None, now, 0, 0)];
      isNew := true;
    }

    method Resync(client: ClientId, mode: AttachMode, now: nat) returns (known: bool)
      modifies this`subs
      ensures known == (client in old(subs))
      ensures subs == if known then old(subs)[client := Resynced(old(subs)[client], mode, now)] else old(subs)
    {
      if client !in subs {
        return false;
      }
      var sub := subs[client];
      sub := sub.(mode := mode, needsSnapshot := true, pending := sub.pending.Clear());
      subs := subs[client := sub.(stalledSince := None, lastAckAt := now)];
      known := true;
    }

    method Detach(client: ClientId) returns (known: bool)
      modifies this`subs
      ensures known == (client in old(subs)) && subs == old(subs) - {client}
    {
      known := client in subs;
      subs := subs - {client};
    }

    method SetMode(client: ClientId, mode: AttachMode)
      modifies this`subs
      ensures subs == if client in old(subs) then old(subs)[client := WithMode(old(subs)[client], mode)] else old(subs)
    {
      if client in subs && subs[client].mode != mode {
        var sub := subs[client].(mode := mode);
        if mode == Active {
          sub := sub.(needsSnapshot := true, pending := sub.pending.(dirty := sub.pending.dirty.SetAll()));
        }
        subs := subs[client := sub];
      }
    }

    method Ack(client: ClientId, seqNo: nat, now: nat)
      modifies this`subs
      ensures subs == if client in old(subs)
                      then old(subs)[client := Acked(old(subs)[client], seqNo, now, config.ackWindow)] else old(subs)
    {
      if client in subs {
        var sub := subs[client];
        if seqNo > sub.lastAcked {
          sub := sub.(lastAcked := if seqNo < sub.lastSent then seqNo else sub.lastSent);
        }
        sub := sub.(lastAckAt := now);
        if !sub.IsWindowBlocked(config.ackWindow) {
          sub := sub.(stalledSince := None);
        }
        subs := subs[client := sub];
      }
    }

    /** Runs `f` over every subscription in place, in no particular order. */
    method ForEach(f: Subscription -> Subscription)
      modifies this`subs
      ensures State() == Mapped(old(State()), f)
    {
      var order := AnyOrder(subs.Keys);
      ghost var after := Mapped(State(), f).subs;
      hide Lists, Overlaid;
      OverlaidNone(subs, after, order);
      for k := 0 to |order|
        invariant subs == Overlaid(old(subs), after, order, k)
      {
        OverlaidNext(old(subs), after, order, k);
        subs := subs[order[k] := f(subs[order[k]])];
      }
      OverlaidAll(old(subs), after, order);
    }

    method RecordDamage(damage: Damage)
      modifies this`subs
      ensures State() == Mapped(old(State()), Damager(damage))
    {
      ForEach(Damager(damage));
    }

    method Record(marks: Marks)
      modifies this`subs
      ensures State() == Mapped(old(State()), Marker(marks))
    {
      ForEach(Marker(marks));
    }

    method RecordResize(size: Size)
      modifies this`subs, this`rows
      ensures State() == Mapped(old(State()), Resizer(size)).(rows := size.rows)
    {
      rows := size.rows;
      ForEach(Resizer(size));
    }

    method ForceSnapshotAll()
      modifies this`subs
      ensures State() == Mapped(old(State()), Forced)
    {
      ForEach(Forced);
    }

    method NoteEventSent(seqNo: nat)
      modifies this`subs
      ensures State() == Mapped(old(State()), EventNoter(seqNo))
    {
      ForEach(EventNoter(seqNo));
    }

    method RecordStylesSent(client: ClientId, generation: nat, sent: nat)
      modifies this`subs
      ensures subs == if client in old(subs)
                      then old(subs)[client := StylesRecorded(old(subs)[client], generation, sent)] else old(subs)
    {
      if client in subs {
        subs := subs[client := subs[client].(stylesGeneration := generation, stylesSent := sent)];
      }
    }

    /** One round of sending: each subscription is charged with what it is given. */
    method Flush(now: nat, seqNo: nat, generation: nat) returns (out: seq<Emission>)
      modifies this`subs, this`lastFlush
      ensures subs == FlushedSubs(old(State()), now, seqNo, generation) && lastFlush == Some(now)
      ensures out == Emissions(old(State()), now, seqNo, generation)
    {
      lastFlush := Some(now);
      ghost var after, owed := FlushedSubs(old(State()), now, seqNo, generation), Owed(old(State()), now, seqNo, generation);
      var order := AnyOrder(subs.Keys);
      out := VisitAll(order, now, seqNo, generation, after, owed);
      VisitOrderIrrelevant(owed, order);
      out := SortBy(out, ByClient);
    }

    /** Flushes every subscription in turn and collects what it is owed. */
    method VisitAll(order: seq<ClientId>, now: nat, seqNo: nat, generation: nat,
                    ghost after: map<ClientId, Subscription>, ghost owed: map<ClientId, Option<Emission>>)
      returns (out: seq<Emission>)
      requires after.Keys == owed.Keys == subs.Keys && Lists(order, subs.Keys)
      requires forall c :: c in subs ==> (after[c], owed[c]) == FlushedOne(c, subs[c], config, rows, now, seqNo, generation)
      modifies this`subs
      ensures subs == after && out == Collected(owed, order, |order|)
    {
      hide FlushedOne, Lists, Overlaid;
      out := [];
      OverlaidNone(subs, after, order);
      for k := 0 to |order|
        invariant subs == Overlaid(old(subs), after, order, k)
        invariant out == Collected(owed, order, k)
      {
        OverlaidNext(old(subs), after, order, k);
        var sub, emission := FlushSubscription(order[k], subs[order[k]], now, seqNo, generation);
        subs := subs[order[k] := sub];
        if emission.Some? {
          out := out + [emission.value];
        }
      }
      OverlaidAll(old(subs), after, order);
    }

    /** One turn of the flush loop, on one subscription. */
    method FlushSubscription(client: ClientId, sub0: Subscription, now: nat, seqNo: nat, generation: nat)
      returns (sub: Subscription, owed: Option<Emission>)
      ensures (sub, owed) == FlushedOne(client, sub0, config, rows, now, seqNo, generation)
    {
      sub := sub0;
      if sub.stylesGeneration != generation {
        sub := sub.(needsSnapshot := true, pending := sub.pending.(dirty := sub.pending.dirty.SetAll()));
      }
      if !sub.needsSnapshot && sub.pending.IsEmpty() {
        return sub, None;
      }
      var bell := sub.pending.bell;
      var since := sub.lastSent;
      if !sub.needsSnapshot && sub.IsWindowBlocked(config.ackWindow) {
        if sub.stalledSince.None? {
          sub := sub.(stalledSince := Some(now));
        }
        if Elapsed(now, sub.stalledSince.value) < config.slowClientSnapshotAfter {
          if bell {
            sub := sub.(pending := sub.pending.(bell := false));
            return sub, Some(Emission(client, sub.mode, BellOnly, since, true));
          }
          return sub, None;
        }
        sub := sub.(needsSnapshot := true);
      }
      if sub.needsSnapshot {
        sub := sub.(needsSnapshot := false, pending := sub.pending.Clear(), lastSent := seqNo);
        sub := sub.(lastAcked := if seqNo >= 1 then seqNo - 1 else 0, stalledSince := None, lastAckAt := now);
        return sub, Some(Emission(client, sub.mode, SnapshotKind, since, bell));
      }
      var dirty := NewDirtySet(0);
      if sub.mode == Active {
        dirty := sub.pending.dirty;
        sub := sub.(pending := sub.pending.(dirty := NewDirtySet(rows)));
      }
      var kind := DeltaKind(dirty, sub.pending.title, sub.pending.resized, sub.stylesSent, sub.stylesGeneration);
      sub := sub.(pending := sub.pending.Clear(), lastSent := seqNo, stalledSince := None);
      return sub, Some(Emission(client, sub.mode, kind, since, bell));
    }

    method IsFlushDue(now: nat) returns (due: bool)
      ensures due == ShouldFlush(State(), now)
    {
      due := (exists c :: c in subs && subs[c].IsOwed())
        && ((lastFlush.None? || Elapsed(now, lastFlush.value) >= config.minInterval)
            || exists c :: c in subs && subs[c].needsSnapshot);
    }
  }

  /** The clients in no particular order, as a hash map iterates. */
  method AnyOrder(clients: set<ClientId>) returns (ids: seq<ClientId>)
    ensures Lists(ids, clients)
  {
    ids := [];
    var todo := clients;
    while todo != {}
      invariant todo <= clients && Lists(ids, clients - todo)
      decreases |todo|
    {
      var c :| c in todo;
      todo, ids := todo - {c}, ids + [c];
    }
  }
}
