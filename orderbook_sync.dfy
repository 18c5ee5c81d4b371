/**
 * The order-book syncer. For every tracked product it keeps three dictionaries
 * that its methods update in place: the sequence number (-1 while not synced),
 * the queue of messages buffered while not synced, and the book. It also logs
 * every snapshot fetch it starts. Each method is proved against the pure
 * per-product rules of `SyncSpec`, and touches only the entries of the product
 * the message or snapshot is for.
 */
module OrderbookSync {
  import opened Wrappers
  import opened SyncSpec

  /** `n` snapshot requests for product `p`. */
  function Copies(p: ProductId, n: nat): (r: seq<ProductId>)
    ensures |r| == n
    ensures forall i :: 0 <= i < n ==> r[i] == p
  {
    seq(n, _ => p)
  }

  lemma CopiesAppend(p: ProductId, a: nat, b: nat)
    ensures Copies(p, a) + Copies(p, b) == Copies(p, a + b)
  {
  }

  lemma UpdateTwice<K, V>(m: map<K, V>, k: K, a: V, b: V)
    ensures m[k := a][k := b] == m[k := b]
  {
  }

  lemma UpdateSame<K, V>(m: map<K, V>, k: K)
    requires k in m
    ensures m[k := m[k]] == m
  {
  }

  /** Every message of `q` is for product `p`. */
  predicate AllFor(q: seq<Message>, p: ProductId)
  {
    forall i :: 0 <= i < |q| ==> q[i].productId == p
  }

  /** Each queue holds only messages for its own product. */
  predicate QueuesFor(queues: map<ProductId, seq<Message>>)
  {
    forall p :: p in queues ==> AllFor(queues[p], p)
  }

  /** A synced product has an empty queue. */
  predicate SyncedEmpty(sequences: map<ProductId, int>, queues: map<ProductId, seq<Message>>)
  {
    forall p :: p in sequences && p in queues && sequences[p] != NotSynced ==> queues[p] == []
  }

  lemma SyncedEmptyUpdate(sequences: map<ProductId, int>, queues: map<ProductId, seq<Message>>,
                          p: ProductId, sequence: int, queue: seq<Message>)
    requires SyncedEmpty(sequences, queues)
    requires sequence != NotSynced ==> queue == []
    ensures SyncedEmpty(sequences[p := sequence], queues[p := queue])
  {
  }

  lemma QueuesForUpdate(queues: map<ProductId, seq<Message>>, p: ProductId, queue: seq<Message>)
    requires QueuesFor(queues) && AllFor(queue, p)
    ensures QueuesFor(queues[p := queue])
  {
  }

  class OrderbookSync {
    const productIds: seq<ProductId>
    var sequences: map<ProductId, int>
    var queues: map<ProductId, seq<Message>>
    var books: map<ProductId, Book>
    /** The products whose snapshot `loadOrderbook` has been asked to fetch, in order. */
    var snapshotRequests: seq<ProductId>

    /** The tracked products: those listed at construction. */
    ghost const tracked: set<ProductId>

    /** The three dictionaries cover exactly the tracked products, and each queue holds only its product's messages. */
    ghost predicate WellFormed()
      reads this
    {
      && sequences.Keys == tracked
      && queues.Keys == tracked
      && books.Keys == tracked
      && QueuesFor(queues)
    }

    /** The object invariant: a synced product has an empty queue. */
    ghost predicate Valid()
      reads this
    {
      WellFormed() && SyncedEmpty(sequences, queues)
    }

    /** The entries of one product, gathered from the three dictionaries. */
    ghost function Product(p: ProductId): ProductState
      reads this
      requires WellFormed() && p in sequences
    {
      ProductState(sequences[p], queues[p], books[p])
    }

    /** Every product starts not synced, with an empty queue and a fresh book, and one snapshot is requested for it. */
    constructor (productIds: seq<ProductId>)
      ensures this.productIds == productIds
      ensures tracked == set p | p in productIds
      ensures Valid()
      ensures forall p :: p in productIds ==> Product(p) == Fresh()
      ensures snapshotRequests == productIds
    {
      var seqs: map<ProductId, int> := map[];
      var qs: map<ProductId, seq<Message>> := map[];
      var bs: map<ProductId, Book> := map[];
      var requested: seq<ProductId> := [];
      for i := 0 to |productIds|
        invariant seqs.Keys == (set p | p in productIds[..i])
        invariant qs.Keys == seqs.Keys && bs.Keys == seqs.Keys
        invariant forall p :: p in seqs ==> seqs[p] == NotSynced && qs[p] == [] && bs[p] == []
        invariant requested == productIds[..i]
      {
        var p := productIds[i];
        assert productIds[..i + 1] == productIds[..i] + [p];
        seqs := seqs[p := NotSynced];
        qs := qs[p := []];
        bs := bs[p := []];
        requested := requested + [p];  // loadOrderbook(p)
      }
      assert productIds[..|productIds|] == productIds;
      this.productIds := productIds;
      tracked := set p | p in productIds;
      sequences, queues, books, snapshotRequests := seqs, qs, bs, requested;
    }

    /** `loadOrderbook`: start a level-3 snapshot fetch for `p`; its completion arrives through `OnSnapshot`. */
    method LoadOrderbook(p: ProductId)
      modifies this`snapshotRequests
      ensures snapshotRequests == old(snapshotRequests) + [p]
    {
      snapshotRequests := snapshotRequests + [p];
    }

    /** `onMessage`: buffer the message while its product is not synced, otherwise process it. */
    method OnMessage(m: Message)
      requires Valid() && m.productId in sequences
      modifies this
      ensures Valid()
      ensures var r := Receive(old(Product(m.productId)), m);
        && sequences == old(sequences)[m.productId := r.state.sequence]
        && queues == old(queues)[m.productId := r.state.queue]
        && books == old(books)[m.productId := r.state.book]
        && snapshotRequests == old(snapshotRequests) + Copies(m.productId, r.reloads)
    {
      var p := m.productId;
      if sequences[p] == NotSynced {
        // the snapshot is not loaded yet
        queues := queues[p := queues[p] + [m]];
      } else {
        ProcessMessage(m);
      }
    }

    /** `processMessage`: skip a stale message, apply the next one, or reset and reload on a gap. */
    method ProcessMessage(m: Message)
      requires WellFormed() && m.productId in sequences
      modifies this
      ensures WellFormed()
      ensures old(Valid()) ==> Valid()
      ensures var r := Process(old(Product(m.productId)), m);
        && sequences == old(sequences)[m.productId := r.state.sequence]
        && queues == old(queues)[m.productId := r.state.queue]
        && books == old(books)[m.productId := r.state.book]
        && snapshotRequests == old(snapshotRequests) + Copies(m.productId, r.reloads)
    {
      var p := m.productId;
      ProcessMoves(Product(p), m);
      UpdateSame(sequences, p);
      UpdateSame(queues, p);
      UpdateSame(books, p);
      if sequences[p] == NotSynced {
        // a resync is in progress
        return;
      }
      if m.sequence <= sequences[p] {
        // already processed
        return;
      }
      if m.sequence != sequences[p] + 1 {
        // a message was dropped: start a resync
        QueuesForUpdate(queues, p, []);
        if SyncedEmpty(sequences, queues) {
          SyncedEmptyUpdate(sequences, queues, p, NotSynced, []);
        }
        queues := queues[p := []];
        sequences := sequences[p := NotSynced];
        LoadOrderbook(p);
        return;
      }
      if SyncedEmpty(sequences, queues) {
        SyncedEmptyUpdate(sequences, queues, p, m.sequence, queues[p]);
      }
      sequences := sequences[p := m.sequence];
      // the book operation selected by the message's type, if any
      books := books[p := books[p] + BookOpsFor(m)];
    }

    /** The `forEach` of the snapshot callback: feed the queued messages of `p`, in order, to `ProcessMessage`. */
    method ReplayQueue(p: ProductId, q: seq<Message>, ghost start: ProductState)
      requires WellFormed() && p in sequences && Product(p) == start
      requires AllFor(q, p)
      modifies this
      ensures WellFormed()
      ensures var r := Replay(start, q);
        && sequences == old(sequences)[p := r.state.sequence]
        && queues == old(queues)[p := r.state.queue]
        && books == old(books)[p := r.state.book]
        && snapshotRequests == old(snapshotRequests) + Copies(p, r.reloads)
    {
      ghost var sequences0, queues0, books0, requests0 := sequences, queues, books, snapshotRequests;
      UpdateSame(sequences0, p);
      UpdateSame(queues0, p);
      UpdateSame(books0, p);
      assert snapshotRequests == requests0 + Copies(p, 0);
      for i := 0 to |q|
        invariant WellFormed()
        invariant var r := Replay(start, q[..i]);
          && sequences == sequences0[p := r.state.sequence]
          && queues == queues0[p := r.state.queue]
          && books == books0[p := r.state.book]
          && snapshotRequests == requests0 + Copies(p, r.reloads)
      {
        ghost var done := Replay(start, q[..i]);
        ghost var next := Process(done.state, q[i]);
        ReplayOneMore(start, q, i);
        assert Product(p) == done.state;
        ProcessMessage(q[i]);
        UpdateTwice(sequences0, p, done.state.sequence, next.state.sequence);
        UpdateTwice(queues0, p, done.state.queue, next.state.queue);
        UpdateTwice(books0, p, done.state.book, next.state.book);
        CopiesAppend(p, done.reloads, next.reloads);
      }
      assert q[..|q|] == q;
    }

    /** The successful part of the snapshot callback: load, take the sequence, replay the queue, empty it. */
    method ApplySnapshot(p: ProductId, snap: Snapshot)
      requires Valid() && p in books
      modifies this
      ensures Valid()
      ensures var r := LoadSnapshot(old(Product(p)), snap);
        && sequences == old(sequences)[p := r.state.sequence]
        && queues == old(queues)[p := r.state.queue]
        && books == old(books)[p := r.state.book]
        && snapshotRequests == old(snapshotRequests) + Copies(p, r.reloads)
    {
      ghost var before := Product(p);
      ghost var sequences0, queues0, books0 := sequences, queues, books;
      ghost var start := ProductState(snap.sequence, queues[p], books[p] + [Load(snap)]);
      books := books[p := books[p] + [Load(snap)]];
      sequences := sequences[p := snap.sequence];
      var q := queues[p];
      assert Product(p) == start;
      ReplayQueue(p, q, start);
      ghost var replayed := Replay(start, q);
      ghost var r := LoadSnapshot(before, snap);
      assert r.state == replayed.state.(queue := []) && r.reloads == replayed.reloads;
      UpdateTwice(sequences0, p, snap.sequence, r.state.sequence);
      UpdateTwice(books0, p, books0[p] + [Load(snap)], r.state.book);
      queues := queues[p := []];
      UpdateTwice(queues0, p, replayed.state.queue, []);
      SyncedEmptyUpdate(sequences0, queues0, p, r.state.sequence, []);
    }

    /**
     * The snapshot callback of `loadOrderbook`: throw on a fetch error or a
     * non-200 status and ignore a product without a book, changing nothing;
     * otherwise load the snapshot, take its sequence, replay the queue in order
     * through `ProcessMessage` and empty the queue. The replay is bound to this
     * object and the callback runs the same on both fetch paths, which is the
     * evident intent of lib/orderbook_sync.js:51 and :79.
     */
    method OnSnapshot(p: ProductId, reply: FetchReply) returns (v: Verdict)
      requires Valid()
      modifies this
      ensures Valid()
      ensures v == SnapshotVerdict(reply, p in old(books))
      ensures v != Loaded ==>
        && sequences == old(sequences) && queues == old(queues) && books == old(books)
        && snapshotRequests == old(snapshotRequests)
      ensures v == Loaded ==> var r := LoadSnapshot(old(Product(p)), reply.body);
        && sequences == old(sequences)[p := r.state.sequence]
        && queues == old(queues)[p := r.state.queue]
        && books == old(books)[p := r.state.book]
        && snapshotRequests == old(snapshotRequests) + Copies(p, r.reloads)
    {
      if reply.err.Some? {
        return Threw(FetchFailed(reply.err.value));
      }
      if reply.statusCode != 200 {
        return Threw(BadStatus(reply.statusCode));
      }
      if p !in books {
        return Ignored;
      }
      ApplySnapshot(p, reply.body);
      v := Loaded;
    }
  }
}
