# Terminal state replication

One `Surface` on a server owns a terminal screen. Any number of clients mirror
it: each is attached through its own subscription, receives Snapshots and
Deltas over a reliable first-in first-out channel, applies them to a `Replica`,
and acknowledges them. The server coalesces damage per subscription, withholds
frames on a full ack window, converges slow clients with a Snapshot, and shares
one style table among all of them that may be reset in the middle of a flush.

This project models both ends, as the code does it, and proves what the design
is for: whatever happens, what every client shows is what the engine holds.

How the model is laid out:

- `Wire`, `StyleTable`, `Engine`: messages, the interning table with its
  overflow policy, and what the server may assume of the terminal engine.
- `Publisher`, `Surface`, `Replica`, `DataPlane`, `CliReplica`: the objects. Each
  is a class whose methods are proved equal to a function on a plain value
  (`State() == After...(old(State()))`); the lemmas are about those functions.
- `System`: every step of the whole system, as one function `Next` on those
  values: connect, attach, resync, mode switch, detach, feed, resize, reset,
  exit, history request, flush at a given time, delivery of one frame or of one
  answer. A resync is the Attach of a client that is already subscribed.
- `Invariant`, `FrameLemmas`, `FlushLemmas`, `Convergence`: the inductive
  invariant and the results that follow from it in every reachable state.
- `Eventual`, `Discipline`, `Starvation`: results about whole runs.
- `Sends`: what a flush sends each client frame by frame; bells, the throttle and
  acks over whole runs; what makes a Snapshot owed.
- `Moments`: what a client shows at every moment of a run, channels full or not.
- `Lossy`: the Gap check at work, when frames are lost after all.
- `HistoryCache`, `Paging`: the bounded history cache and the loop that fills it.
- `Selection`, `SelectionText`, `ShellWords`: selecting text over soft-wrapped
  lines, and typing dropped paths.

What is assumed of the engine (`Engine.Advances`): the grid is full, damage
covers every changed row, and damage is Full whenever the first visible line
moves. The last point carries weight: when a client drops its cache it does not
shift its grid, so only a Delta that names every row repairs it. Screens have at
most 4096 distinct styles, the default included; `SnapshotSelfContainedIff` shows
that this is exactly when a Snapshot can be right. Two rows are the same when
they agree cell by cell, missing cells being blank.

Where documents and code differ, the model follows the code:
`docs/plan/02-protocol.md` section 7 keeps cached history across a Snapshot, the
code drops it; the throttle of its section 6 is per client, the code's is per
Surface, and one client owed a Snapshot flushes everyone.

Results that turned out to hold only under a condition are stated as
equivalences: eventual consistency with a zero ack window
(`EventuallyConsistent`, `DueFlushShowsIff`), the cache after shrinking
(`ShrinkKeepsIff`, with what goes wrong in `ShrinkMislabels` and an input that
does in `ShrinkWitness`) and with a zero cap (`ZeroCapPageIff`, `ZeroCapWitness`), paging past the cap (`PagingStopsIff`), logical lines just past
the buffer (`LogicalLinesPartitionIff`), column ranges of a selection that starts
right of the grid (`ColsOnIff`), lost frames, where an exit event makes a client
forget that it is behind (`LossNeverTears`, `ExitHidesGap`), and paths that are empty or hold a newline
(`PosixRoundTripIff`, `WindowsRoundTripIff`).

## Model

| member | source | states |
|---|---|---|
| Convergence.ClientsConverge | crates/st-core/src/publisher.rs:529-618 | In every reachable state a client that owes no Snapshot and has applied all that was sent agrees with the engine on every row outside its dirty set, through its own style table, and on every scalar not flagged pending; with nothing pending but a bell an Active client shows exactly the engine's screen. |
| Moments.NoTornPicture | crates/st-core/src/surface.rs:611-686 | At every moment of every run, channels full or empty, an Active client that has applied a Snapshot or a Delta shows exactly the screen the engine had at the flush that frame was sent by, every style index resolved, until its next Snapshot or Delta, whatever else arrives. |
| Moments.OneFlushPerNumber | crates/st-core/src/surface.rs:611-622 | No two flushes of a run have the same number, so the screen meant is one. |
| Moments.LoopShows | crates/st-core/src/surface.rs:624-680 | Every frame a flush puts on a channel will make its Active client show the screen that flush found. |
| Moments.StepReplica | crates/st-client-core/src/dataplane.rs:490-545 | A replica changes exactly when a frame is delivered to it. |
| Moments.ShownLines | crates/st-client-core/src/replica.rs:360-368 | A replica that shows a screen reads each visible line's id as the engine's line of that id, and nothing past the grid. |
| Moments.SnapshotsCounted | crates/st-client-core/src/replica.rs:405-406 | A replica counts every Snapshot delivered to it. |
| Eventual.EventuallyConsistent | crates/st-client-core/src/dataplane.rs:490-536 | From any reachable state, delivering all frames, then all answers, then one due flush and its frames makes an Active replica equal to the engine's screen if the window allows any frame; in general it does if and only if that flush does not hold the client back or it was equal already. |
| Eventual.DueFlushShowsIff | crates/st-core/src/publisher.rs:552-571 | Exactly when one due flush brings an Active client to the screen: unless its window is full, its grace period runs and nothing forces a Snapshot. |
| Convergence.NoFalseGap | crates/st-client-core/src/replica.rs:453-462 | Over any run no client counts a Gap or asks for a Resync, every frame on its way chains, and only acks travel up, despite skipped flushes, forced Snapshots, resyncs and exits. |
| Convergence.StylesAgree | crates/st-core/src/surface.rs:624-684 | For an Active subscription that owes no Snapshot and lives in the table's generation, the client will hold exactly the entries it was sent, whatever other clients' frames interned or reset in between; a Passive one is stripped of styles while its cursor moves on. |
| Convergence.StepKeeps | crates/st-core/src/surface.rs:312-686 | Every step of the system keeps the invariant that each client tracks the engine up to what its subscription has pending. |
| Discipline.SequenceDiscipline | crates/st-core/src/publisher.rs:387-397 | Over every run acknowledged <= sent <= the Surface's number; neither cursor goes back; a cursor that moves takes the one number its step consumed. |
| Discipline.FlushNumbers | crates/st-core/src/surface.rs:611-622 | A flush that emits consumes exactly one number, shared by all its sequenced frames; one that does not sends nothing and moves no cursor. |
| Discipline.AckWindowBound | crates/st-core/src/publisher.rs:213-218 | In every reachable state at most `ack_window` Deltas handed to a subscription lie above its acknowledged number, although the code compares numbers that jump. |
| Sends.AckWindowHolds | crates/st-core/src/publisher.rs:387-397 | Counted against the answers themselves: in every state of every run at most `ack_window` of the Deltas handed to a subscription lie above every ack that arrived from it and are not followed by a Snapshot it was handed, and the acknowledged number stands on one of the two. |
| Sends.FlushSends | crates/st-core/src/publisher.rs:529-618 | A flush that goes through sends a client one bell if one is pending and none otherwise, then one picture if it is served and none otherwise: a Snapshot when one is owed, else a Delta, unless the style table was reset in this very flush. |
| Sends.BellsReach | crates/st-core/src/surface.rs:627-634 | Over any run, a flush that goes through puts exactly one bell on a client's channel if one was rung for it since the last or since it attached, and none otherwise. |
| Sends.BellPendingIff | crates/st-core/src/publisher.rs:428-430 | A bell is pending for a client exactly when one was rung since it last attached and no flush has gone through since. |
| Sends.Throttle | crates/st-core/src/publisher.rs:472-487 | With a clock that never goes back, two flushes that send anything to anyone are at least the minimum interval apart, unless a client is owed a Snapshot at the later one. |
| Sends.FlushClocks | crates/st-core/src/publisher.rs:552-616 | A Snapshot leaves one frame outstanding; a withheld client keeps its cursors and its stall clock starts now or runs on; any served client's is off. |
| Sends.SnapshotOwedIff | crates/st-core/src/publisher.rs:322-382 | A Snapshot comes to be owed exactly by attaching again, becoming Active, a terminal reset, or a style table reset while rows are rendered. |
| Sends.FeedPendingIs | crates/st-core/src/surface.rs:312-326 | A feed makes pending exactly the damaged rows and each scalar that is not what the last frame said. |
| Sends.PassiveGetsNoRows | crates/st-core/src/publisher.rs:592-596 | Over any run no frame sent to a Passive subscription carries rows or styles. |
| Starvation.NoStarvation | crates/st-core/src/publisher.rs:552-571 | With a clock that never goes back, a subscription with more than a bell pending at a flush that goes through at t, and that stays attached, has been handed a sequenced frame by the end of any such flush at t + grace or later, whatever acks arrive. |
| CliReplicas.TwoClientsOnePicture | crates/st-cli/src/replica.rs:61-119 | Over any run, deliveries and acks interleaved with anything, from the first Snapshot delivered on, a command-line replica that receives the same frames shows the same cells, styles and scalars as the native one after every event, as long as no exit event is among them and each Delta was sent to an Active attachment. |
| CliReplicas.FrameSame | crates/st-cli/src/replica.rs:61-119 | One frame: a Snapshot makes the two pictures the same, anything else but an exit event keeps them so. |
| LossyStreams.LossNeverTears | crates/st-client-core/src/replica.rs:453-462 | Whatever frames of its stream a client loses, the Gap check lets no torn picture through: it shows what it would have shown at some point with nothing lost, as long as no exit event reaches it while it is behind. |
| LossyStreams.RunLossNeverTears | crates/st-client-core/src/replica.rs:453-462 | ... and every channel of every run is such a stream. |
| LossyStreams.ExitHidesGap | crates/st-client-core/src/replica.rs:515-518 | An exit event that reaches a client that is behind hides the Gap: the next Delta is taken, and an old row stands beside a new one. |
| LossyStreams.CliLossNeverTears | crates/st-cli/src/replica.rs:85-91 | The command-line replica, which takes no exit events, never shows a torn picture whatever it loses. |
| LossyStreams.RunInOrder | crates/st-core/src/surface.rs:611-622 | In every run the numbered frames on a channel rise, above what the client has applied and up to the Surface's number. |
| LossyStreams.GapAsks | crates/st-client-core/src/dataplane.rs:508-514 | A Delta that does not chain changes two counters and nothing shown, and asks for a Snapshot in the attached mode; once that arrives the subscription owes one. |
| LossyStreams.SnapshotCures | crates/st-client-core/src/replica.rs:405-440 | A Snapshot makes any replica whatever show the engine's screen. |
| HistoryCache.CacheRefinesRecord | crates/st-client-core/src/replica.rs:620-671 | Over any gap-free run of Deltas, pages, Snapshots, exit events and harmless shrinks from a Snapshot on, every line in the cached range reads as the row an unbounded record kept for its id; the cache stays one run, within the cap, above the trim point, ending at or below the grid. |
| HistoryCache.DeltaCachedIff | crates/st-client-core/src/replica.rs:620-671 | What a chaining Delta leaves cached, line by line: unless the cache must be dropped (history went back, more lines passed than were shown, or the run does not end at the grid), exactly the lines that were cached or just left the grid, not below the new trim point and among the newest cap; each reads as it did or as the grid showed it. |
| HistoryCache.DeltaGridIs | crates/st-client-core/src/replica.rs:634-644 | ... and on the grid a row it does not name shows the line that moved there, blank if there was none, or stays if the cache was dropped. |
| HistoryCache.PageCachedIff | crates/st-client-core/src/replica.rs:527-577 | What a page that does not raise the trim point leaves cached, line by line. |
| HistoryCache.PageRaises | crates/st-client-core/src/replica.rs:527-530 | Any page may raise the trim point, never lower it, and nothing below it stays cached. |
| HistoryCache.ShrinkCachedIff | crates/st-client-core/src/replica.rs:595-601 | A shrink keeps exactly the newest lines it is asked to. |
| HistoryCache.MergeIsUnion | crates/st-client-core/src/replica.rs:551-574 | Before the cap, a page that touches the run yields exactly the union with cached rows winning; any other replaces the run. |
| HistoryCache.PageMerge | crates/st-client-core/src/replica.rs:527-577 | A page that does not raise the trim point leaves exactly the newest cap lines of the merge, none at or past the first visible line, and touches nothing else. |
| HistoryCache.ClippedInside | crates/st-client-core/src/replica.rs:532-544 | What is kept of a page ends below the first visible line. |
| HistoryCache.DeltaLogged | crates/st-client-core/src/replica.rs:474-485 | A chaining Delta keeps the cache well-formed and equal to the record. |
| HistoryCache.PageLogged | crates/st-client-core/src/replica.rs:527-577 | So does a page that does not raise the trim point. |
| HistoryCache.ShrinkKeepsIff | crates/st-client-core/src/replica.rs:595-601 | Shrinking keeps the cache well-formed exactly when something is kept or the run abuts the grid. |
| HistoryCache.ShrinkMislabels | crates/st-client-core/src/replica.rs:595-601 | Otherwise the next line to leave the grid is read back under the id after the old run. |
| HistoryCache.ShrinkWitness | crates/st-client-core/src/replica.rs:595-601 | Such a run arises: ten lines of history, a page holding only line 2, a shrink to nothing, one line of output, and what was line 10 reads as line 3. |
| HistoryCache.ZeroCapPageIff | crates/st-client-core/src/replica.rs:665-671 | With a zero cap a page keeps the cache well-formed exactly when nothing of it survives clipping or it reaches the grid. |
| Paging.ZeroCapWitness | crates/st-client-core/src/replica.rs:665-671 | With a zero cap the same page leaves an empty cache that claims to start at line 3, so a viewport at line 5 asks for nothing. |
| Paging.PagingStopsIff | crates/st-native/src/geometry.rs:282-299 | With a Surface whose screen stands still and a cache abutting the grid, asking stops if and only if the lines from the viewport's top down fit the cap, then within one round per page, with every such line cached: what was cached as it was, the rest reading as the engine's line of that id. |
| Paging.PagingTerminates | crates/st-native/src/geometry.rs:282-299 | With retained history within the cap every round that asks strictly lowers the cache start, and after ceil((start - want_start) / page) rounds nothing is missing and every history line of the viewport reads. |
| Paging.ViewportFills | crates/st-native/src/paint.rs:251-274 | ... so every line of the viewport, cached or visible, can be painted. |
| Paging.ViewportMoves | crates/st-client-core/src/replica.rs:377-381 | The viewport starts at the grid when following, one line older for each line scrolled up, and stays at the oldest retained line. |
| Paging.RequestShape | crates/st-native/src/geometry.rs:288-298 | Something is requested exactly when the cache starts above the viewport's top and the trim point: a non-empty page that ends where the cache starts and reaches down until a full page, the trim point or half a page above the viewport stops it. |
| Paging.RoundStep | crates/st-native/src/paint.rs:268-274 | One request and its answer move the cache start to the page's start or to what the cap allows, and change no cached row. |
| FrameLemmas.SnapshotSelfContained | crates/st-core/src/surface.rs:690-726 | If the screen's styles fit one table, a Snapshot is rendered at most twice, resets the table at most once, and every cell resolves in the styles it carries to the engine's style. |
| FrameLemmas.SnapshotSelfContainedIff | crates/st-core/src/surface.rs:694-701 | For any grid, a Snapshot is right exactly when the screen and the default have at most 4096 distinct styles. |
| FrameLemmas.SnapshotArrives | crates/st-client-core/src/replica.rs:405-440 | A client given a Snapshot, stripped when Passive, agrees with the engine on everything. |
| FrameLemmas.DeltaBuilt | crates/st-core/src/surface.rs:731-788 | A Delta that is built paints exactly the dirty rows, in order, each as the engine's line, through a table that extends the sender's in its own generation. |
| FrameLemmas.DeltaAnnounces | crates/st-core/src/surface.rs:759-787 | Its header says what the engine says, the title only when it may differ. |
| FrameLemmas.DeltaRows | crates/st-client-core/src/replica.rs:474-501 | An Active client that takes such a Delta shows every line of the screen, the unnamed ones included. |
| FrameLemmas.DeltaArrives | crates/st-client-core/src/replica.rs:453-511 | A client given its Delta fits it without a Gap and agrees with the engine on everything. |
| FrameLemmas.StylesComplete | crates/st-core/src/style_table.rs:72-81 | A client table that is a prefix of the sender's completes to it from the entries past the cursor. |
| FrameLemmas.SyncedStable | crates/st-core/src/surface.rs:624-680 | Building other clients' frames disturbs no client's agreement. |
| FlushLemmas.EmissionTracks | crates/st-core/src/surface.rs:635-678 | Each emission of a flush, bell, Snapshot, Delta or a Delta turned Snapshot, leaves its client tracking the engine. |
| FlushLemmas.EmissionOwed | crates/st-core/src/publisher.rs:535-616 | What is emitted for a client is what its own subscription was owed. |
| FlushLemmas.OwedEmission | crates/st-core/src/publisher.rs:535-616 | A client that is owed something is emitted to. |
| FlushLemmas.FrameLoop | crates/st-core/src/surface.rs:624-680 | After any number of emissions the clients served are tracked and the others untouched. |
| FlushLemmas.UnservedTracks | crates/st-core/src/publisher.rs:542-571 | A client the flush says nothing to stays tracked. |
| FlushLemmas.FlushKeeps | crates/st-core/src/surface.rs:611-686 | A whole flush keeps the invariant, a table reset in the middle of it included. |
| Invariants.FeedKeeps | crates/st-core/src/surface.rs:312-326 | Output keeps every client tracked: damage goes to every pending set before rows can differ. |
| Invariants.ResizeKeeps | crates/st-core/src/surface.rs:333-351 | So does a resize, also one that asks for the size there is. |
| Invariants.ResetKeeps | crates/st-core/src/surface.rs:355-361 | So does a hard reset, by forcing Snapshots. |
| Invariants.HistoryKeeps | crates/st-core/src/surface.rs:478-495 | So does rendering a history page, which may reset the table. |
| Convergence.AttachKeeps | crates/st-core/src/publisher.rs:322-364 | So does an Attach, new or repeated, with frames still on their way. |
| Convergence.SwitchKeeps | crates/st-core/src/publisher.rs:374-382 | So does a mode switch. |
| Convergence.DetachKeeps | crates/st-core/src/publisher.rs:367-369 | So does a detach. |
| Convergence.ExitKeeps | crates/st-core/src/surface.rs:368-379 | So does the exit event, which consumes a number for every subscription. |
| Convergence.DownKeeps | crates/st-client-core/src/dataplane.rs:490-545 | So does delivering one frame. |
| Convergence.UpKeeps | crates/st-core/src/publisher.rs:387-397 | So does delivering one ack, however stale. |
| Convergence.DrainedUp | crates/st-client-core/src/dataplane.rs:574-581 | Answers queue behind those already waiting. |
| Invariants.Append | crates/st-client-core/src/dataplane.rs:472-556 | A frame put on a channel is applied after everything before it. |
| Discipline.BuiltFrames | crates/st-core/src/surface.rs:624-675 | Every frame of a flush belongs to one of its emissions and carries the flush's number. |
| Discipline.DeltaMeansOpen | crates/st-core/src/publisher.rs:590-616 | A Delta reaches a client only in a flush that found its window open, and it carries that flush's number. |
| Discipline.StepMoves | crates/st-core/src/publisher.rs:322-644 | What each step of the system does to one subscription's cursors. |
| Discipline.CursorMoves | crates/st-core/src/publisher.rs:387-644 | No such step moves a cursor back. |
| Starvation.RunWaits | crates/st-core/src/publisher.rs:552-556 | After the first flush a client has been handed something or its stall clock still runs from then. |
| Publishing.VisitOrderIrrelevant | crates/st-core/src/publisher.rs:535-617 | The emissions are the same, in ascending client order, whatever order the hash map is visited in. |
| Publishing.Publisher.Flush | crates/st-core/src/publisher.rs:529-618 | The flush leaves every subscription, and emits for each, exactly what that subscription alone determines. |
| Publishing.Publisher.FlushSubscription | crates/st-core/src/publisher.rs:536-615 | One turn of the flush loop, branch by branch. |
| Publishing.Publisher.IsFlushDue | crates/st-core/src/publisher.rs:464-487 | True exactly when something is owed and either the interval has passed or some client is owed a Snapshot. |
| Publishing.Publisher.Attach | crates/st-core/src/publisher.rs:322-348 | A new client is owed a Snapshot; a repeated Attach is a Resync. |
| Publishing.Publisher.Resync | crates/st-core/src/publisher.rs:354-364 | Keeps the subscription's cursors and owes it a Snapshot; false for a stranger. |
| Publishing.Publisher.Detach | crates/st-core/src/publisher.rs:367-369 | Forgets exactly this client. |
| Publishing.Publisher.SetMode | crates/st-core/src/publisher.rs:374-382 | Becoming Active owes a Snapshot; anything else only changes the mode. |
| Publishing.Publisher.Ack | crates/st-core/src/publisher.rs:387-397 | Moves the acknowledged number up, never past the sent one, and stops the stall clock when the window is open. |
| Publishing.Publisher.RecordDamage | crates/st-core/src/publisher.rs:400-410 | Adds the damage to every subscription's dirty set. |
| Publishing.Publisher.Record | crates/st-core/src/publisher.rs:413-435 | Raises the flags of every subscription. |
| Publishing.Publisher.RecordResize | crates/st-core/src/publisher.rs:438-452 | Every subscription is owed the new size and every row. |
| Publishing.Publisher.ForceSnapshotAll | crates/st-core/src/publisher.rs:455-461 | Every subscription is owed a Snapshot. |
| Publishing.Publisher.NoteEventSent | crates/st-core/src/publisher.rs:640-644 | Every sent cursor moves up to the event's number. |
| Publishing.Publisher.RecordStylesSent | crates/st-core/src/publisher.rs:626-631 | Moves one style cursor; a stranger's is ignored. |
| Surfaces.Surface.Feed | crates/st-core/src/surface.rs:312-326 | The engine's new screen, events and damage reach every subscription, then what the last frame does not say. |
| Surfaces.Surface.Resize | crates/st-core/src/surface.rs:333-351 | Clamps to 1x1, does nothing for the same size, otherwise owes every row. |
| Surfaces.Surface.Reset | crates/st-core/src/surface.rs:355-361 | Clears the styles and owes everyone a Snapshot. |
| Surfaces.Surface.SetExited | crates/st-core/src/surface.rs:368-379 | Consumes a number for the exit event. |
| Surfaces.Surface.FetchHistory | crates/st-core/src/surface.rs:478-495 | Answers with the page `HistoryPageIs` describes; an overflow while rendering forces Snapshots. |
| Surfaces.HistoryPageIs | crates/st-core/src/surface.rs:478-495 | By line id: the page starts at the id asked for or the oldest retained line, has the lines up to the count or the end of the grid, and each row reads as the engine's line of its id, in its styles too unless the table was reset meanwhile. |
| Engine.HistoryLinesAre | crates/st-core/src/vt/alacritty.rs:435-452 | Which engine lines answer a request, by id. |
| Engine.PackRowsRead | crates/st-core/src/vt/alacritty.rs:565-611 | Whatever happens to the styles, packed rows read as the engine's lines. |
| Surfaces.Surface.BuildSnapshot | crates/st-core/src/surface.rs:690-726 | The whole screen, rendered again if the first pass overflowed. |
| Surfaces.Surface.BuildDelta | crates/st-core/src/surface.rs:731-788 | The dirty rows and new styles, or nothing when the generation moved before or while packing. |
| Surfaces.Surface.BuildFrame | crates/st-core/src/surface.rs:635-678 | The frames of one emission, a failed Delta becoming a Snapshot. |
| Surfaces.Surface.Flush | crates/st-core/src/surface.rs:611-686 | A whole flush: throttle, publisher, frames in order, and Snapshots for all after an overflow. |
| StyleTables.SurfaceStyleTable.Intern | crates/st-core/src/style_table.rs:56-69 | Finds or appends a style; a full table without it is reset and the style gets index 1. |
| StyleTables.SurfaceStyleTable.Reset | crates/st-core/src/style_table.rs:102-107 | Leaves only the default, in a new generation, and reports it. |
| StyleTables.SurfaceStyleTable.TakeOverflow | crates/st-core/src/style_table.rs:89-92 | Reports an overflow once. |
| StyleTables.InternGrows | crates/st-core/src/style_table.rs:56-69 | Interning keeps the table valid, only appends within a generation, and the index it gives holds the style. |
| StyleTables.InternWithin | crates/st-core/src/style_table.rs:56-69 | Interning from a set that fits never resets a table already inside it. |
| StyleTables.SetStylesCompletes | crates/st-proto/src/cell.rs:359-371 | Writing a table's entries from a cursor on completes the prefix before it. |
| Engine.PackRowsShow | crates/st-core/src/vt/alacritty.rs:565-611 | Packing lines without a reset shows every one through the resulting table. |
| Engine.PackRowsWithin | crates/st-core/src/surface.rs:694-701 | Packing lines whose styles fit one table resets it at most once. |
| Engine.PackRow | crates/st-core/src/vt/alacritty.rs:565-611 | Packs one line cell by cell: style interned, flags from the cell, a cluster stored for zero-width followers, nothing for the right half of a wide character, the wrap bit from the last cell; then trims trailing blanks. |
| Engine.PackCellsShow | crates/st-core/src/vt/alacritty.rs:573-601 | Without a reset every packed cell still resolves to its style and its text, however many styles and clusters follow. |
| Wire.TruncateRowKeeps | crates/st-client-core/src/replica.rs:676-682 | Cutting a row to the grid's width changes no cell inside it. |
| Replicas.WriteRowsAt | crates/st-client-core/src/replica.rs:487-501 | Dirty rows land at their indices and nowhere else. |
| Replicas.BeforeRowsShape | crates/st-client-core/src/replica.rs:474-485 | Before rows are written the grid has its full height; unresized and unmoved, it is as it was. |
| Replicas.WireTable | crates/st-proto/src/cell.rs:318-336 | A Snapshot's table is taken as it is exactly when it starts with the default style and is within the cap, else the default one stands in. |
| Replicas.SetStyleAt | crates/st-proto/src/cell.rs:359-371 | One style entry read back: its index, default holes, the rest, and nothing past the cap. |
| Replicas.Replica.ApplySnapshot | crates/st-client-core/src/replica.rs:405-440 | Replaces grid, styles and scalars, padding and cutting rows, and drops the cached history. |
| Replicas.Replica.ApplyDelta | crates/st-client-core/src/replica.rs:453-511 | A Gap changes nothing but its counter; otherwise styles, size, scroll, rows and scalars in that order. |
| Replicas.Replica.ApplyExited | crates/st-client-core/src/replica.rs:515-518 | Takes the status and the number. |
| Replicas.Replica.ApplyHistoryPage | crates/st-client-core/src/replica.rs:527-577 | Clips the page, merges it or replaces the run with it, evicts and trims. |
| Replicas.Replica.Line | crates/st-client-core/src/replica.rs:360-368 | A line from the grid, from the cache, or nothing. |
| Replicas.Replica.Resize | crates/st-client-core/src/replica.rs:583-589 | Blank rows added or rows dropped at the bottom, every row cut to the width. |
| Replicas.Replica.ShrinkHistoryTo | crates/st-client-core/src/replica.rs:595-601 | Drops the oldest cached rows. |
| Replicas.Replica.ScrollOff | crates/st-client-core/src/replica.rs:620-644 | Moves the scrolled rows into the cache, or drops a cache that cannot extend. |
| Replicas.Replica.EvictBelowTrimPoint | crates/st-client-core/src/replica.rs:653-661 | Drops cached rows below the trim point; an empty cache moves to the grid. |
| Replicas.Replica.TrimToCap | crates/st-client-core/src/replica.rs:665-671 | Drops the oldest rows past the cap. |
| DataPlanes.QueueKeepsLifecycles | crates/st-client-core/src/dataplane.rs:274-304 | After any stream of pushes since a drain the queue is within the cap, a subsequence of the stream, and its lifecycle events are exactly the last ones pushed, up to the cap. |
| DataPlanes.StateNeverLost | crates/st-client-core/src/dataplane.rs:392-400 | No connection, detach or exit event is lost while no more than the cap of them are pushed between two drains, whatever else is pushed. |
| DataPlanes.PushedLastIff | crates/st-client-core/src/dataplane.rs:274-304 | A pushed event is last in the queue unless it may be lost and everything queued may not. |
| DataPlanes.HearsWhatIsTold | crates/st-client-core/src/dataplane.rs:519-545 | A client queues exactly the exits, bells and detaches its frames tell of, in order, once each. |
| DataPlanes.EventQueue.Push | crates/st-client-core/src/dataplane.rs:274-304 | One push: a repeated bell is dropped, a full queue gives up its oldest non-lifecycle event, or its oldest for a lifecycle event. |
| DataPlanes.DataPlaneCore.Dispatch | crates/st-client-core/src/dataplane.rs:472-556 | Every message: a frame is applied, answered (acks only when configured, a Resync always) and its event queued; handshake answers and errors only queue theirs or fail; a message only clients send fails. |
| DataPlanes.DataPlaneCore.TakeFrame | crates/st-client-core/src/dataplane.rs:490-545 | The frame arms, including the Gap remembered until a Snapshot heals it. |
| DataPlanes.DataPlaneCore.RequestSnapshot | crates/st-client-core/src/dataplane.rs:587-606 | Counts a Resync and asks for a Snapshot in the attached mode, Active when none is known. |
| CliReplicas.DeltaSame | crates/st-cli/src/replica.rs:85-119 | A Delta that names every row it moves keeps the two replicas' pictures the same, though one clears on resize and never shifts. |
| CliReplicas.CliReplica.ApplyDelta | crates/st-cli/src/replica.rs:85-119 | A Gap changes nothing; otherwise styles, a cleared grid on resize, rows verbatim and scalars. |
| Selections.ColsOnIff | crates/st-client-core/src/selection.rs:180-217 | Inside the grid `cols_on` selects what `contains` does, and exactly one more column when a selection starts right of the grid. |
| Selections.ColsOnSelects | crates/st-client-core/src/selection.rs:180-217 | For end points inside the grid the two select the same cells. |
| Selections.ContainsIff | crates/st-client-core/src/selection.rs:150-196 | A selection contains what reads between its ends, or their whole lines and those between, or the rectangle they span. |
| Selections.WordAtIff | crates/st-client-core/src/selection.rs:423-456 | On a word character `word_at` is the one maximal run around the column, elsewhere that column alone. |
| Selections.WordUnder | crates/st-client-core/src/selection.rs:423-456 | The two scanning loops compute that run. |
| Selections.LogicalLineIff | crates/st-client-core/src/selection.rs:461-479 | `logical_line` is the one maximal group of soft-wrapped lines around a line of the buffer. |
| Selections.LogicalLinesPartitionIff | crates/st-client-core/src/selection.rs:461-479 | Every member of a logical line gives the same range, except for the line just past a buffer whose last row claims to wrap. |
| Selections.LogicalLineOf | crates/st-client-core/src/selection.rs:461-479 | The two scanning loops compute that group. |
| Selections.SnapIdempotent | crates/st-client-core/src/selection.rs:225-264 | Snapping twice is snapping once, in every mode and both drag directions, also off the grid or off the cache. |
| Selections.SnapWidens | crates/st-client-core/src/selection.rs:218-264 | Every cell selected before snapping is selected after. |
| Selections.SnapSelectsIff | crates/st-client-core/src/selection.rs:218-264 | Snapping selects exactly what was selected and the words, or the logical lines, at both ends. |
| Selections.SnapSymmetric | crates/st-client-core/src/selection.rs:225-264 | Dragging the other way selects the same cells. |
| Selections.CellCharIsBase | crates/st-client-core/src/selection.rs:484-493 | The character a word is made of is the engine's base character; the right half of a wide one has none. |
| SelectionTexts.TextIsPieces | crates/st-client-core/src/selection.rs:276-310 | The copied text is, line by line, the text of exactly the selected cells in order, trailing spaces dropped if so configured, with a newline between two lines unless the first wraps into the next; a block always breaks. |
| SelectionTexts.TextStructure | crates/st-client-core/src/selection.rs:276-310 | Without newlines in cells, splitting the text at its newlines gives back those pieces, run together wherever a row flows on. |
| SelectionTexts.SegmentIsPiece | crates/st-client-core/src/selection.rs:283-295 | One line contributes the text of its selected cells, whatever column the selection starts in. |
| SelectionTexts.CopiesWhatItContains | crates/st-client-core/src/selection.rs:180-217 | For end points inside the grid the copied cells are those the selection contains. |
| SelectionTexts.TextNewlines | crates/st-client-core/src/selection.rs:297-306 | The text has one newline for each selected line boundary that is not a soft wrap. |
| SelectionTexts.FlowsOnIff | crates/st-client-core/src/selection.rs:297-306 | Outside a block a break is left out exactly where the row is known to wrap. |
| SelectionTexts.FlowsWithinLogicalLine | crates/st-client-core/src/selection.rs:266-306 | ... which is where the next line continues the same logical line. |
| SelectionTexts.SnappedLineHasNoNewline | crates/st-client-core/src/selection.rs:276-310 | A snapped selection of one logical line copies no newline. |
| SelectionTexts.CopyIsDisplayed | crates/st-client-core/src/selection.rs:496-514 | From a row that reads as an engine line, the copied text is the engine's own: packing, trimming, the wire and unpacking lose no character. |
| SelectionTexts.TrimSpacesIs | crates/st-client-core/src/selection.rs:291-294 | Trimming drops exactly the trailing run of spaces. |
| SelectionTexts.RowSegment | crates/st-client-core/src/selection.rs:496-514 | The text of the columns in order: spacers give nothing, clusters are spliced in. |
| SelectionTexts.Selection.Snap | crates/st-client-core/src/selection.rs:225-264 | Moves both ends outward by mode and direction. |
| SelectionTexts.Selection.CopyText | crates/st-client-core/src/selection.rs:276-310 | The copying loop; lines that are not cached give nothing. |
| ShellWords.PosixRoundTripIff | crates/st-native/src/dnd.rs:50-118 | A POSIX shell (POSIX.1-2017 XCU sections 2.2.1 and 2.3) reads the typed text back as exactly the paths, in order, if and only if none is empty and none holds a newline. |
| ShellWords.ReadWords | crates/st-native/src/dnd.rs:50-118 | What it reads back for any paths at all: each without its newlines, the empty ones lost. |
| ShellWords.ReadOne | crates/st-native/src/dnd.rs:50-55 | Every character a shell treats specially is escaped, and no escape is lost. |
| ShellWords.TypedVerbatimIff | crates/st-native/src/dnd.rs:43-55 | A path is typed as it is exactly when it is made of letters, digits, the documented ten characters and non-ASCII. |
| ShellWords.UnquotedIff | crates/st-native/src/dnd.rs:78-100 | On Windows it goes without quotes exactly when it is made of those and backslashes. |
| ShellWords.WindowsRoundTripIff | crates/st-native/src/dnd.rs:78-100 | As far as splitting at blanks and double quotes go, the quoted dialect reads back if and only if no path is empty; what a shell does with other characters is not covered. |
| ShellWords.WordFor | crates/st-native/src/dnd.rs:66-103 | Both dialects compute the word the round trips are about. |
| ShellWords.WriteEscaped | crates/st-native/src/dnd.rs:70-77 | The POSIX character loop. |
| ShellWords.WriteDoubled | crates/st-native/src/dnd.rs:86-98 | The Windows character loop. |

## Left out

- Integer widths: sequence numbers, line ids, generations, columns and style indices are naturals, so saturation at `u64::MAX`, the wrapping `u32` generation and the `u16` style cursor are not modelled; times are naturals too.
- The single-consumer path (`take_update`, `snapshot`, `take_delta` and the Surface's own pending set): `flush` clears the state it shares, so it is not meant to run beside fan-out.
- History replies in the whole-system model: a request changes the server there, but the page does not travel down the channel; pages are covered by `HistoryCache` and `Paging`, where a page raising the trim point is excluded because it moves the first visible line under an unchanged grid.
- Equality of cached history with the engine's: coalescing can make the row that scrolls off stale, so the cache is compared with what the client showed.
- Style soundness of history rows: a page carries no style table.
- Paging.PagingStopsIff: the page is at most the 1000 lines a request may ask for, as the painter's constant is, and the server does not change meanwhile.
- Starvation.NoStarvation: counts flushes the throttle lets through, because the publisher is not asked at all in the others.
- CliReplicas.TwoClientsOnePicture: exit events are excluded, since the command-line replica has no operation for them.
- ShellWords.WindowsRoundTripIff: covers splitting and quotes only, not what cmd or PowerShell do with a bare `,` or `@`, or with `$`, a backtick or `%`; lossy conversion of paths that are not Unicode happens before the model starts.
- View state, working-directory probing, the PTY and its resize failures, replies to colour and size requests, silent-client reports with the time of the last ack they read, and the time of the next flush: no effect on what a client shows.
- Publishing.Publisher.Record: stands for the five methods that each raise one flag.
- Several surfaces per connection, locks, sockets, threads, reconnection, the watchdog's clock and forgetting a surface: a handler is one atomic step. In the whole-system model every client acks what it applies, as configured by default.
- Wire encoding and terminal parsing: the grid of engine cells is a parameter of each step.
- The word-array layout of dirty sets and the hash index of the style table: a set and a search.
- Selection geometry, the scrollbar and everything else over floating point, and selection conversion to and from the wire form.
