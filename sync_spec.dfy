/**
 * The per-product synchronisation rules of the order-book syncer, as pure
 * functions over one product's state: its sequence number (-1 while it is not
 * synced), the queue of feed messages buffered while it is not synced, and its
 * book. The book itself is kept abstract: it is the log of the operations
 * applied to it, so that "exactly one book operation happened" can be stated.
 */
module SyncSpec {
  import opened Wrappers

  type ProductId = string

  /** The sequence value that marks a product as not synced. */
  const NotSynced: int := -1

  /** A decoded feed message; `kind` is the feed's `type` field, kept as text so that unknown kinds exist. */
  datatype Message = Message(productId: ProductId, sequence: int, kind: string, orderId: string)

  /** One resting order of a full-depth snapshot. */
  datatype Entry = Entry(price: string, size: string, orderId: string)

  /** A parsed level-3 snapshot: the sequence it was taken at and its resting orders. */
  datatype Snapshot = Snapshot(sequence: int, bids: seq<Entry>, asks: seq<Entry>)

  /** The operations the syncer calls on a product's book. */
  datatype BookOp =
    | Add(order: Message)
    | Remove(orderId: string)
    | Match(trade: Message)
    | Change(update: Message)
    | Load(snapshot: Snapshot)

  /** A book, abstracted to the operations applied to it since it was created. */
  type Book = seq<BookOp>

  datatype ProductState = ProductState(sequence: int, queue: seq<Message>, book: Book)

  /** A new state together with the number of snapshot reloads requested on the way. */
  datatype Step = Step(state: ProductState, reloads: nat)

  /** The state every tracked product starts in. */
  function Fresh(): ProductState
  {
    ProductState(NotSynced, [], [])
  }

  predicate Synced(s: ProductState)
  {
    s.sequence != NotSynced
  }

  /** The syncer's invariant: a synced product has nothing buffered. */
  predicate Coherent(s: ProductState)
  {
    Synced(s) ==> s.queue == []
  }

  /** The book operation selected by a message's type; unknown types select none. */
  function BookOpsFor(m: Message): seq<BookOp>
  {
    match m.kind
    case "open" => [Add(m)]
    case "done" => [Remove(m.orderId)]
    case "match" => [Match(m)]
    case "change" => [Change(m)]
    case _ => []
  }

  predicate KnownKind(kind: string)
  {
    kind == "open" || kind == "done" || kind == "match" || kind == "change"
  }

  /** `processMessage`: classify a message against the current sequence. */
  function Process(s: ProductState, m: Message): (r: Step)
    ensures r.reloads <= 1
    ensures r.reloads == 1 <==> Synced(s) && m.sequence > s.sequence + 1
    ensures r.state.queue == s.queue || r.state.queue == []
    ensures |s.book| <= |r.state.book| <= |s.book| + 1 && r.state.book[..|s.book|] == s.book
  {
    if s.sequence == NotSynced then Step(s, 0)
    else if m.sequence <= s.sequence then Step(s, 0)
    else if m.sequence != s.sequence + 1 then Step(ProductState(NotSynced, [], s.book), 1)
    else Step(s.(sequence := m.sequence, book := s.book + BookOpsFor(m)), 0)
  }

  /** `onMessage`: buffer while not synced, otherwise process. */
  function Receive(s: ProductState, m: Message): (r: Step)
    ensures Coherent(s) ==> Coherent(r.state)
    ensures !Synced(s) ==> r.state.queue == s.queue + [m] && r.state.book == s.book && r.reloads == 0
    ensures Synced(s) ==> r.state.queue == s.queue || r.state.queue == []
    ensures |s.book| <= |r.state.book| <= |s.book| + 1 && r.state.book[..|s.book|] == s.book
  {
    if s.sequence == NotSynced then Step(s.(queue := s.queue + [m]), 0)
    else Process(s, m)
  }

  /** Feed the messages of `q`, in order, to `Process`. */
  function Replay(s: ProductState, q: seq<Message>): (r: Step)
    ensures r.state.queue == s.queue || r.state.queue == []
    ensures |s.book| <= |r.state.book| <= |s.book| + |q| && r.state.book[..|s.book|] == s.book
    decreases |q|
  {
    if q == [] then Step(s, 0)
    else
      var before := Replay(s, q[..|q| - 1]);
      var last := Process(before.state, q[|q| - 1]);
      assert last.state.book[..|s.book|] == before.state.book[..|s.book|];
      Step(last.state, before.reloads + last.reloads)
  }

  /**
   * Snapshot completion: the book loads the snapshot, the sequence becomes the
   * snapshot's, the queue is replayed in order through `Process`, and the queue
   * is finally emptied. This is the evident intent of the replay, which as
   * written passes `processMessage` unbound (see `LoadSnapshotAsWritten`).
   */
  function LoadSnapshot(s: ProductState, snap: Snapshot): (r: Step)
    ensures r.state.queue == []
    ensures |s.book| + 1 <= |r.state.book| <= |s.book| + 1 + |s.queue|
    ensures r.state.book[..|s.book| + 1] == s.book + [Load(snap)]
  {
    var replayed := Replay(ProductState(snap.sequence, s.queue, s.book + [Load(snap)]), s.queue);
    Step(replayed.state.(queue := []), replayed.reloads)
  }

  /** The book operations of `q`, in order. */
  function Ops(q: seq<Message>): Book
    decreases |q|
  {
    if q == [] then [] else Ops(q[..|q| - 1]) + BookOpsFor(q[|q| - 1])
  }

  /** `q` carries the sequence numbers c + 1, c + 2, ... with no gap. */
  predicate Contiguous(q: seq<Message>, c: int)
  {
    forall i :: 0 <= i < |q| ==> q[i].sequence == c + 1 + i
  }

  /** Every message of `q` is already covered by sequence `c`. */
  predicate AllStale(q: seq<Message>, c: int)
  {
    forall i :: 0 <= i < |q| ==> q[i].sequence <= c
  }

  // ---------------------------------------------------------------------------
  // One message

  /** A stale message, or any message while a resync is in progress, changes nothing. */
  lemma StaleIsNoop(s: ProductState, m: Message)
    requires !Synced(s) || m.sequence <= s.sequence
    ensures Process(s, m) == Step(s, 0)
  {
  }

  /** Processing the same message twice is the same as processing it once. */
  lemma ReprocessIsNoop(s: ProductState, m: Message)
    ensures var t := Process(s, m).state; Process(t, m) == Step(t, 0)
  {
  }

  /** The next message in sequence advances the sequence and applies exactly the one operation its type selects. */
  lemma NextAppliesOneOp(s: ProductState, m: Message)
    requires Synced(s) && m.sequence == s.sequence + 1
    ensures var r := Process(s, m);
      && r.reloads == 0
      && r.state.sequence == m.sequence
      && r.state.queue == s.queue
      && (m.kind == "open" ==> r.state.book == s.book + [Add(m)])
      && (m.kind == "done" ==> r.state.book == s.book + [Remove(m.orderId)])
      && (m.kind == "match" ==> r.state.book == s.book + [Match(m)])
      && (m.kind == "change" ==> r.state.book == s.book + [Change(m)])
      && (!KnownKind(m.kind) ==> r.state.book == s.book)
  {
  }

  /** A gap empties the queue, unsyncs the product and requests one reload, leaving the book untouched. */
  lemma GapResets(s: ProductState, m: Message)
    requires Synced(s) && m.sequence > s.sequence + 1
    ensures Process(s, m) == Step(ProductState(NotSynced, [], s.book), 1)
  {
  }

  /** A sequence only ever stays, grows by exactly one, or resets; the invariant is kept; the book only grows. */
  lemma ProcessMoves(s: ProductState, m: Message)
    ensures var t := Process(s, m).state;
      && (t.sequence == s.sequence || t.sequence == s.sequence + 1 || t.sequence == NotSynced)
      && (Coherent(s) ==> Coherent(t))
      && |t.book| <= |s.book| + 1 && t.book[..|s.book|] == s.book
  {
  }

  /** While a product is not synced, a message is appended to its queue and nothing else changes. */
  lemma ReceiveBuffers(s: ProductState, m: Message)
    requires !Synced(s)
    ensures Receive(s, m) == Step(ProductState(s.sequence, s.queue + [m], s.book), 0)
  {
  }

  // ---------------------------------------------------------------------------
  // Replaying a queue

  /** Replaying one more message of a queue is processing it after the replay so far. */
  lemma ReplayOneMore(s: ProductState, q: seq<Message>, i: int)
    requires 0 <= i < |q|
    ensures var done := Replay(s, q[..i]);
      var next := Process(done.state, q[i]);
      Replay(s, q[..i + 1]) == Step(next.state, done.reloads + next.reloads)
  {
    assert q[..i + 1][..i] == q[..i];
  }

  /** Replaying `a` then `b` is replaying `a + b`. */
  lemma {:induction false} ReplayAppend(s: ProductState, a: seq<Message>, b: seq<Message>)
    ensures var ra := Replay(s, a); var rb := Replay(ra.state, b);
      Replay(s, a + b) == Step(rb.state, ra.reloads + rb.reloads)
    decreases |b|
  {
    if b == [] {
      assert a + b == a;
    } else {
      var b' := b[..|b| - 1];
      assert (a + b)[..|a + b| - 1] == a + b';
      assert (a + b)[|a + b| - 1] == b[|b| - 1];
      ReplayAppend(s, a, b');
    }
  }

  /** Once a product is not synced, replaying anything has no effect. */
  lemma {:induction false} ResyncIsInert(s: ProductState, q: seq<Message>)
    requires !Synced(s)
    ensures Replay(s, q) == Step(s, 0)
    decreases |q|
  {
    if q != [] {
      ResyncIsInert(s, q[..|q| - 1]);
    }
  }

  /** Messages already covered by the current sequence are all dropped. */
  lemma {:induction false} StaleReplayIsNoop(s: ProductState, q: seq<Message>)
    requires AllStale(q, s.sequence)
    ensures Replay(s, q) == Step(s, 0)
    decreases |q|
  {
    if q != [] {
      StaleReplayIsNoop(s, q[..|q| - 1]);
    }
  }

  /** A gap-free run after the current sequence is applied in full, in order. */
  lemma {:induction false} ContiguousReplay(s: ProductState, q: seq<Message>)
    requires s.sequence >= 0 && Contiguous(q, s.sequence)
    ensures Replay(s, q) == Step(s.(sequence := s.sequence + |q|, book := s.book + Ops(q)), 0)
    decreases |q|
  {
    if q != [] {
      var n := |q| - 1;
      var q' := q[..n];
      assert Contiguous(q', s.sequence);
      ContiguousReplay(s, q');
      var mid := s.(sequence := s.sequence + n, book := s.book + Ops(q'));
      assert Process(mid, q[n]) == Step(mid.(sequence := q[n].sequence, book := mid.book + BookOpsFor(q[n])), 0);
      ReplayOneMore(s, q, n);
      assert q[..n + 1] == q;
      assert Ops(q) == Ops(q') + BookOpsFor(q[n]);
      assert mid.book + BookOpsFor(q[n]) == s.book + Ops(q);
    }
  }

  /** A gap during a replay stops every further effect of it: the rest of the queue changes nothing. */
  lemma {:induction false} GapEndsReplay(s: ProductState, a: seq<Message>, m: Message, b: seq<Message>)
    requires Synced(Replay(s, a).state)
    requires m.sequence > Replay(s, a).state.sequence + 1
    ensures var ra := Replay(s, a);
      Replay(s, a + [m] + b) == Step(ProductState(NotSynced, [], ra.state.book), ra.reloads + 1)
  {
    var ra := Replay(s, a);
    ReplayAppend(s, a, [m]);
    assert [m][..0] == [];
    var reset := ProductState(NotSynced, [], ra.state.book);
    assert Replay(s, a + [m]) == Step(reset, ra.reloads + 1);
    ReplayAppend(s, a + [m], b);
    ResyncIsInert(reset, b);
  }

  /** A replay requests at most one reload, and only by ending not synced with an empty queue. */
  lemma {:induction false} ReplayReloadsAtMostOnce(s: ProductState, q: seq<Message>)
    ensures Replay(s, q).reloads <= 1
    ensures Replay(s, q).reloads == 1 ==> !Synced(Replay(s, q).state) && Replay(s, q).state.queue == []
    ensures !Synced(s) ==> Replay(s, q).reloads == 0
    decreases |q|
  {
    if !Synced(s) {
      ResyncIsInert(s, q);
    }
    if q != [] {
      ReplayReloadsAtMostOnce(s, q[..|q| - 1]);
    }
  }

  // ---------------------------------------------------------------------------
  // Snapshot completion

  /**
   * After a snapshot, buffered messages it already covers are dropped and the
   * gap-free run after it is applied once each, in order: the book is exactly
   * the snapshot plus that run, and nothing is left queued.
   */
  lemma SnapshotCatchesUp(s: ProductState, snap: Snapshot, stale: seq<Message>, run: seq<Message>)
    requires s.queue == stale + run
    requires snap.sequence >= 0
    requires AllStale(stale, snap.sequence) && Contiguous(run, snap.sequence)
    ensures LoadSnapshot(s, snap)
         == Step(ProductState(snap.sequence + |run|, [], s.book + [Load(snap)] + Ops(run)), 0)
  {
    var start := ProductState(snap.sequence, s.queue, s.book + [Load(snap)]);
    ReplayAppend(start, stale, run);
    StaleReplayIsNoop(start, stale);
    ContiguousReplay(start, run);
  }

  /** Snapshot completion always leaves the queue empty, keeps the invariant, and requests at most one reload. */
  lemma SnapshotLeavesCoherent(s: ProductState, snap: Snapshot)
    ensures LoadSnapshot(s, snap).state.queue == []
    ensures Coherent(LoadSnapshot(s, snap).state)
    ensures LoadSnapshot(s, snap).reloads <= 1
    ensures LoadSnapshot(s, snap).reloads == 1 ==> !Synced(LoadSnapshot(s, snap).state)
  {
    ReplayReloadsAtMostOnce(ProductState(snap.sequence, s.queue, s.book + [Load(snap)]), s.queue);
  }

  // ---------------------------------------------------------------------------
  // The snapshot callback

  /** What the snapshot fetch hands to the callback: an error, a status code, and the parsed body. */
  datatype FetchReply = FetchReply(err: Option<string>, statusCode: int, body: Snapshot)

  datatype LoadError = FetchFailed(err: string) | BadStatus(code: int) | UnboundReceiver

  datatype Verdict = Threw(error: LoadError) | Ignored | Loaded

  /** The callback's decision: throw on a fetch error or a non-200 status, ignore a product without a book, else load. */
  function SnapshotVerdict(reply: FetchReply, hasBook: bool): (v: Verdict)
    ensures v == Loaded <==> reply.err == None && reply.statusCode == 200 && hasBook
    ensures v == Ignored <==> reply.err == None && reply.statusCode == 200 && !hasBook
    ensures v.Threw? && v.error.FetchFailed? <==> reply.err.Some?
    ensures reply.err.None? && reply.statusCode != 200 ==> v == Threw(BadStatus(reply.statusCode))
  {
    if reply.err.Some? then Threw(FetchFailed(reply.err.value))
    else if reply.statusCode != 200 then Threw(BadStatus(reply.statusCode))
    else if !hasBook then Ignored
    else Loaded
  }

  /**
   * The callback as written: on the authenticated path `cb` is passed without
   * being bound, so in the class's strict-mode code `this` is undefined and the
   * read of `this.books` throws a TypeError once the fetch has succeeded.
   */
  function SnapshotVerdictAsWritten(reply: FetchReply, hasBook: bool, viaAuthenticated: bool): (v: Verdict)
    ensures !viaAuthenticated ==> v == SnapshotVerdict(reply, hasBook)
    ensures viaAuthenticated ==> v.Threw?
    ensures viaAuthenticated && reply.err.None? && reply.statusCode == 200 ==> v == Threw(UnboundReceiver)
  {
    if reply.err.Some? then Threw(FetchFailed(reply.err.value))
    else if reply.statusCode != 200 then Threw(BadStatus(reply.statusCode))
    else if viaAuthenticated then Threw(UnboundReceiver)
    else if !hasBook then Ignored
    else Loaded
  }

  /** On the authenticated path a successful fetch never loads, so the product never syncs. */
  lemma UnboundCallbackNeverLoads(reply: FetchReply, hasBook: bool)
    requires reply.err == None && reply.statusCode == 200
    ensures SnapshotVerdictAsWritten(reply, hasBook, true) == Threw(UnboundReceiver)
    ensures hasBook ==> SnapshotVerdict(reply, hasBook) == Loaded
  {
  }

  /** Snapshot completion and whether it threw, as the replay is written. */
  datatype Completion = Completion(state: ProductState, threw: bool)

  /**
   * The replay as written passes `this.processMessage` unbound to `forEach`: the
   * first queued message reaches `this._sequences` with `this` undefined and
   * throws a TypeError, after the book and the sequence were set and before the
   * queue is emptied. An empty queue never calls it.
   */
  function LoadSnapshotAsWritten(s: ProductState, snap: Snapshot): (r: Completion)
    ensures r.threw <==> s.queue != []
    ensures r.state.sequence == snap.sequence && r.state.book == s.book + [Load(snap)]
    ensures r.state.queue == s.queue
    ensures s.queue == [] ==> r.state == LoadSnapshot(s, snap).state
  {
    var loaded := ProductState(snap.sequence, s.queue, s.book + [Load(snap)]);
    if s.queue == [] then Completion(loaded, false)
    else Completion(loaded, true)
  }

  /**
   * A product with one buffered message just after the snapshot: as written the
   * callback throws, leaves the product synced with a non-empty queue and never
   * applies the message; the intended completion applies it and empties the queue.
   */
  lemma UnboundReplayStrandsQueue()
    ensures var m := Message("BTC-USD", 11, "open", "order-1");
      var snap := Snapshot(10, [], []);
      var s := ProductState(NotSynced, [m], []);
      var w := LoadSnapshotAsWritten(s, snap);
      && w.threw
      && Synced(w.state) && !Coherent(w.state)
      && w.state.book == [Load(snap)]
      && LoadSnapshot(s, snap) == Step(ProductState(11, [], [Load(snap), Add(m)]), 0)
  {
    var m := Message("BTC-USD", 11, "open", "order-1");
    var snap := Snapshot(10, [], []);
    var s := ProductState(NotSynced, [m], []);
    assert s.queue == [] + [m];
    assert Contiguous([m], snap.sequence);
    SnapshotCatchesUp(s, snap, [], [m]);
    assert Ops([m]) == [Add(m)] by {
      assert [m][..0] == [];
      assert BookOpsFor(m) == [Add(m)];
    }
    assert [] + [Load(snap)] + [Add(m)] == [Load(snap), Add(m)];
  }
}
