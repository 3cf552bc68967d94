/**
  `FreeBlockQueue`: a deque and a heap from which entries are never removed in the middle.  An entry
  that is taken out early is only invalidated and skipped later.  Entries are identified by tickets.
 */
module FreeQueues {
  import opened Common
  import opened KvPool

  datatype Entry = Entry(ticket: nat, block: nat)

  datatype Item = Item(stamp: nat, order: nat, entry: Entry)

  // ----- what the lazily deleted structures stand for -----

  /** The blocks of the valid entries among the first `n`, in order. */
  function Live(fifo: seq<Entry>, valid: set<nat>, n: nat): seq<nat>
    requires n <= |fifo|
  {
    if n == 0 then []
    else if fifo[n - 1].ticket in valid then Live(fifo, valid, n - 1) + [fifo[n - 1].block]
    else Live(fifo, valid, n - 1)
  }

  /** The blocks of the valid heap items among the first `n`, with stamp and insertion order. */
  function LiveItems(heap: seq<Item>, valid: set<nat>, n: nat): map<nat, (nat, nat)>
    requires n <= |heap|
  {
    if n == 0 then map[]
    else if heap[n - 1].entry.ticket in valid
    then LiveItems(heap, valid, n - 1)[heap[n - 1].entry.block := (heap[n - 1].stamp, heap[n - 1].order)]
    else LiveItems(heap, valid, n - 1)
  }

  lemma {:induction false} LiveMember(fifo: seq<Entry>, valid: set<nat>, n: nat, b: nat)
    requires n <= |fifo|
    ensures b in Live(fifo, valid, n) <==> exists i :: 0 <= i < n && fifo[i].block == b && fifo[i].ticket in valid
    decreases n
  {
    if n > 0 { LiveMember(fifo, valid, n - 1, b); }
  }

  lemma {:induction false} ItemMember(heap: seq<Item>, valid: set<nat>, n: nat, b: nat)
    requires n <= |heap|
    ensures b in LiveItems(heap, valid, n) <==> exists i :: 0 <= i < n && heap[i].entry.block == b && heap[i].entry.ticket in valid
    decreases n
  {
    if n > 0 { ItemMember(heap, valid, n - 1, b); }
  }

  /** Entries that are not among the first `n` do not matter. */
  lemma {:induction false} LivePrefix(fifo: seq<Entry>, after: seq<Entry>, valid: set<nat>, later: set<nat>, n: nat)
    requires n <= |fifo| && n <= |after|
    requires forall i :: 0 <= i < n ==> after[i] == fifo[i] && (fifo[i].ticket in valid <==> fifo[i].ticket in later)
    ensures Live(after, later, n) == Live(fifo, valid, n)
    decreases n
  {
    if n > 0 { LivePrefix(fifo, after, valid, later, n - 1); }
  }

  lemma {:induction false} ItemsPrefix(heap: seq<Item>, after: seq<Item>, valid: set<nat>, later: set<nat>, n: nat)
    requires n <= |heap| && n <= |after|
    requires forall i :: 0 <= i < n ==> after[i] == heap[i] && (heap[i].entry.ticket in valid <==> heap[i].entry.ticket in later)
    ensures LiveItems(after, later, n) == LiveItems(heap, valid, n)
    decreases n
  {
    if n > 0 { ItemsPrefix(heap, after, valid, later, n - 1); }
  }

  /** Invalidating the one valid entry of a block takes that block out. */
  lemma {:induction false} LiveWithout(fifo: seq<Entry>, valid: set<nat>, ticket: nat, b: nat, n: nat)
    requires n <= |fifo|
    requires forall i :: 0 <= i < n && fifo[i].ticket in valid ==> (fifo[i].ticket == ticket <==> fifo[i].block == b)
    ensures Live(fifo, valid - {ticket}, n) == Without(Live(fifo, valid, n), b)
    decreases n
  {
    if n > 0 {
      LiveWithout(fifo, valid, ticket, b, n - 1);
      if fifo[n - 1].ticket in valid {
        WithoutConcat(Live(fifo, valid, n - 1), [fifo[n - 1].block], b);
        assert [fifo[n - 1].block][1..] == [];
      }
    }
  }

  lemma {:induction false} ItemsWithout(heap: seq<Item>, valid: set<nat>, ticket: nat, b: nat, n: nat)
    requires n <= |heap|
    requires forall i :: 0 <= i < n && heap[i].entry.ticket in valid ==> (heap[i].entry.ticket == ticket <==> heap[i].entry.block == b)
    ensures LiveItems(heap, valid - {ticket}, n) == LiveItems(heap, valid, n) - {b}
    decreases n
  {
    if n > 0 { ItemsWithout(heap, valid, ticket, b, n - 1); }
  }

  /** Dropping the head of the deque. */
  lemma {:induction false} LiveTail(fifo: seq<Entry>, valid: set<nat>, n: nat)
    requires 0 < n <= |fifo|
    ensures Live(fifo, valid, n) == (if fifo[0].ticket in valid then [fifo[0].block] else []) + Live(fifo[1..], valid, n - 1)
    decreases n
  {
    if n > 1 { LiveTail(fifo, valid, n - 1); }
  }

  /** Dropping an invalid item from the heap, wherever it is. */
  lemma {:induction false} ItemsDrop(heap: seq<Item>, valid: set<nat>, k: nat, rest: seq<Item>, n: nat)
    requires k < |heap| && rest == heap[..k] + heap[k + 1..] && n <= |rest| && heap[k].entry.ticket !in valid
    ensures LiveItems(rest, valid, n) == LiveItems(heap, valid, if n <= k then n else n + 1)
    decreases n
  {
    if n > 0 {
      ItemsDrop(heap, valid, k, rest, n - 1);
      assert rest[n - 1] == heap[if n - 1 < k then n - 1 else n];
    }
  }

  // ----- the fields together -----

  datatype Fields = Fields(fifo: seq<Entry>, heap: seq<Item>, entries: map<nat, nat>, valid: set<nat>, tickets: nat, order: nat)

  function View(q: Fields): FreeQueue {
    FreeQueue(Live(q.fifo, q.valid, |q.fifo|), LiveItems(q.heap, q.valid, |q.heap|), q.order + 1)
  }

  /** A ticket is valid exactly while the entry map points to it. */
  ghost predicate EntryOk(q: Fields, e: Entry) {
    e.ticket < q.tickets && (e.ticket in q.valid <==> e.block in q.entries && q.entries[e.block] == e.ticket)
  }

  ghost predicate Queued(q: Fields, b: nat)
    requires b in q.entries
  {
    || (exists i :: 0 <= i < |q.fifo| && q.fifo[i] == Entry(q.entries[b], b))
    || (exists i :: 0 <= i < |q.heap| && q.heap[i].entry == Entry(q.entries[b], b))
  }

  ghost predicate Distinctly(q: Fields) {
    && (forall i, j :: 0 <= i < j < |q.fifo| ==> q.fifo[i].ticket != q.fifo[j].ticket)
    && (forall i, j :: 0 <= i < j < |q.heap| ==> q.heap[i].entry.ticket != q.heap[j].entry.ticket && q.heap[i].order != q.heap[j].order)
    && (forall i, j :: 0 <= i < |q.fifo| && 0 <= j < |q.heap| ==> q.fifo[i].ticket != q.heap[j].entry.ticket)
  }

  ghost predicate EntriesOk(q: Fields) {
    && (forall i :: 0 <= i < |q.fifo| ==> EntryOk(q, q.fifo[i]))
    && (forall i :: 0 <= i < |q.heap| ==> EntryOk(q, q.heap[i].entry) && q.heap[i].order <= q.order)
    && (forall b :: b in q.entries ==> q.entries[b] in q.valid && q.entries[b] < q.tickets && Queued(q, b))
  }

  ghost predicate Counted(q: Fields) {
    |q.entries| == |View(q).fifo| + |View(q).lru|
  }

  ghost predicate FieldsOk(q: Fields) {
    EntriesOk(q) && Distinctly(q) && Counted(q)
  }

  /** A block is queued exactly when the entry map knows it. */
  lemma {:induction false} Members(q: Fields, b: nat)
    requires FieldsOk(q)
    ensures b in q.entries <==> b in View(q).fifo || b in View(q).lru
  {
    LiveMember(q.fifo, q.valid, |q.fifo|, b);
    ItemMember(q.heap, q.valid, |q.heap|, b);
    if b in q.entries {
      assert Queued(q, b);
    }
    if b in View(q).fifo {
      var i :| 0 <= i < |q.fifo| && q.fifo[i].block == b && q.fifo[i].ticket in q.valid;
      assert EntryOk(q, q.fifo[i]);
    }
    if b in View(q).lru {
      var i :| 0 <= i < |q.heap| && q.heap[i].entry.block == b && q.heap[i].entry.ticket in q.valid;
      assert EntryOk(q, q.heap[i].entry);
    }
  }

  /** Nothing is queued twice. */
  lemma {:induction false} NotTwice(q: Fields, b: nat)
    requires FieldsOk(q) && b in View(q).fifo
    ensures b !in View(q).lru
  {
    LiveMember(q.fifo, q.valid, |q.fifo|, b);
    ItemMember(q.heap, q.valid, |q.heap|, b);
    var i :| 0 <= i < |q.fifo| && q.fifo[i].block == b && q.fifo[i].ticket in q.valid;
    assert EntryOk(q, q.fifo[i]);
  }

  lemma {:induction false} LiveDistinct(q: Fields, n: nat)
    requires FieldsOk(q) && n <= |q.fifo|
    ensures NoRepeats(Live(q.fifo, q.valid, n))
    decreases n
  {
    if n > 0 {
      LiveDistinct(q, n - 1);
      LiveMember(q.fifo, q.valid, n - 1, q.fifo[n - 1].block);
    }
  }

  // ----- invalidation -----

  function Invalidate(q: Fields, b: nat): Fields {
    if b in q.entries then q.(entries := q.entries - {b}, valid := q.valid - {q.entries[b]}) else q
  }

  lemma {:induction false} InvalidateView(q: Fields, b: nat)
    requires FieldsOk(q)
    ensures View(Invalidate(q, b)) == Remove(View(q), b)
  {
    Members(q, b);
    if b in q.entries {
      var ticket := q.entries[b];
      forall i | 0 <= i < |q.fifo| && q.fifo[i].ticket in q.valid ensures q.fifo[i].ticket == ticket <==> q.fifo[i].block == b {
        assert EntryOk(q, q.fifo[i]);
        if q.fifo[i].ticket == ticket { SameTicket(q, q.fifo[i], b); }
      }
      forall i | 0 <= i < |q.heap| && q.heap[i].entry.ticket in q.valid
        ensures q.heap[i].entry.ticket == ticket <==> q.heap[i].entry.block == b
      {
        assert EntryOk(q, q.heap[i].entry);
        if q.heap[i].entry.ticket == ticket { SameTicket(q, q.heap[i].entry, b); }
      }
      LiveWithout(q.fifo, q.valid, ticket, b, |q.fifo|);
      ItemsWithout(q.heap, q.valid, ticket, b, |q.heap|);
    } else {
      WithoutAbsent(View(q).fifo, b);
      assert View(q).lru - {b} == View(q).lru;
    }
  }

  /** Two blocks never share a ticket. */
  lemma {:induction false} SameTicket(q: Fields, e: Entry, b: nat)
    requires FieldsOk(q) && b in q.entries && e.ticket == q.entries[b]
    requires (exists i :: 0 <= i < |q.fifo| && q.fifo[i] == e) || (exists i :: 0 <= i < |q.heap| && q.heap[i].entry == e)
    ensures e.block == b
  {
    assert Queued(q, b);
  }

  lemma {:induction false} InvalidateEntry(q: Fields, b: nat, e: Entry)
    requires FieldsOk(q) && b in q.entries && EntryOk(q, e)
    requires (exists i :: 0 <= i < |q.fifo| && q.fifo[i] == e) || (exists i :: 0 <= i < |q.heap| && q.heap[i].entry == e)
    ensures EntryOk(Invalidate(q, b), e)
  {
    if e.ticket == q.entries[b] { SameTicket(q, e, b); }
  }

  lemma {:induction false} InvalidateEntries(q: Fields, b: nat)
    requires FieldsOk(q) && b in q.entries
    ensures EntriesOk(Invalidate(q, b))
  {
    hide Counted, Distinctly;
    var r := Invalidate(q, b);
    forall i | 0 <= i < |r.fifo| ensures EntryOk(r, r.fifo[i]) { InvalidateEntry(q, b, q.fifo[i]); }
    forall i | 0 <= i < |r.heap| ensures EntryOk(r, r.heap[i].entry) { InvalidateEntry(q, b, q.heap[i].entry); }
    forall c | c in r.entries ensures r.entries[c] in r.valid && Queued(r, c) {
      assert Queued(q, c);
      if q.entries[c] == q.entries[b] { SameTicket(q, Entry(q.entries[c], c), b); }
    }
  }

  lemma {:induction false} InvalidateDistinctly(q: Fields, b: nat)
    requires Distinctly(q)
    ensures Distinctly(Invalidate(q, b))
  {
  }

  lemma {:induction false} ViewDistinct(q: Fields)
    requires FieldsOk(q)
    ensures NoRepeats(View(q).fifo)
  {
    hide FieldsOk;
    LiveDistinct(q, |q.fifo|);
  }

  lemma {:induction false} InvalidateOk(q: Fields, b: nat)
    requires FieldsOk(q)
    ensures FieldsOk(Invalidate(q, b)) && b !in Invalidate(q, b).entries
  {
    hide EntriesOk, View, Without, Distinctly;
    var r := Invalidate(q, b);
    if b in q.entries {
      InvalidateEntries(q, b);
      InvalidateDistinctly(q, b);
      InvalidateView(q, b);
      Members(q, b);
      if b in View(q).fifo { NotTwice(q, b); }
      ViewDistinct(q);
      RemoveOk(View(q), b);
      assert q.entries == r.entries[b := q.entries[b]];
    }
  }

  // ----- insertion -----

  function PushFifo(q: Fields, b: nat): Fields {
    q.(fifo := q.fifo + [Entry(q.tickets, b)], entries := q.entries[b := q.tickets], valid := q.valid + {q.tickets},
       tickets := q.tickets + 1)
  }

  function PushHeap(q: Fields, b: nat, stamp: nat): Fields {
    q.(heap := q.heap + [Item(stamp, q.order + 1, Entry(q.tickets, b))], entries := q.entries[b := q.tickets],
       valid := q.valid + {q.tickets}, tickets := q.tickets + 1, order := q.order + 1)
  }

  /** An entry that was there before keeps its meaning when a new ticket is issued for another block. */
  lemma {:induction false} OldEntry(q: Fields, r: Fields, b: nat, e: Entry)
    requires EntryOk(q, e) && b !in q.entries
    requires r.entries == q.entries[b := q.tickets] && r.valid == q.valid + {q.tickets} && r.tickets == q.tickets + 1
    ensures EntryOk(r, e)
  {
  }

  lemma {:induction false} PushFifoEntries(q: Fields, b: nat)
    requires EntriesOk(q) && b !in q.entries
    ensures EntriesOk(PushFifo(q, b))
  {
    var r := PushFifo(q, b);
    forall i | 0 <= i < |r.fifo| ensures EntryOk(r, r.fifo[i]) {
      if i < |q.fifo| { OldEntry(q, r, b, q.fifo[i]); }
    }
    forall i | 0 <= i < |r.heap| ensures EntryOk(r, r.heap[i].entry) { OldEntry(q, r, b, q.heap[i].entry); }
    forall c | c in r.entries ensures Queued(r, c) {
      if c == b {
        assert r.fifo[|q.fifo|] == Entry(r.entries[b], b);
      } else {
        assert Queued(q, c);
        if i :| 0 <= i < |q.fifo| && q.fifo[i] == Entry(q.entries[c], c) { assert r.fifo[i] == Entry(r.entries[c], c); }
      }
    }
  }

  lemma {:induction false} NewTicket(q: Fields, r: Fields)
    requires EntriesOk(q) && r.valid == q.valid + {q.tickets}
    requires |q.fifo| <= |r.fifo| && r.fifo[..|q.fifo|] == q.fifo && |q.heap| <= |r.heap| && r.heap[..|q.heap|] == q.heap
    ensures Live(r.fifo, r.valid, |q.fifo|) == Live(q.fifo, q.valid, |q.fifo|)
    ensures LiveItems(r.heap, r.valid, |q.heap|) == LiveItems(q.heap, q.valid, |q.heap|)
  {
    forall i | 0 <= i < |q.fifo| ensures r.fifo[i] == q.fifo[i] && (q.fifo[i].ticket in q.valid <==> q.fifo[i].ticket in r.valid) {
      assert EntryOk(q, q.fifo[i]);
    }
    forall i | 0 <= i < |q.heap|
      ensures r.heap[i] == q.heap[i] && (q.heap[i].entry.ticket in q.valid <==> q.heap[i].entry.ticket in r.valid)
    {
      assert EntryOk(q, q.heap[i].entry);
    }
    LivePrefix(q.fifo, r.fifo, q.valid, r.valid, |q.fifo|);
    ItemsPrefix(q.heap, r.heap, q.valid, r.valid, |q.heap|);
  }

  lemma {:induction false} PushFifoDistinct(q: Fields, b: nat)
    requires EntriesOk(q) && Distinctly(q)
    ensures Distinctly(PushFifo(q, b))
  {
    assert forall i :: 0 <= i < |q.fifo| ==> EntryOk(q, q.fifo[i]);
    assert forall i :: 0 <= i < |q.heap| ==> EntryOk(q, q.heap[i].entry);
  }

  lemma {:induction false} PushFifoOk(q: Fields, b: nat)
    requires FieldsOk(q) && b !in q.entries
    ensures FieldsOk(PushFifo(q, b)) && View(PushFifo(q, b)) == View(q).(fifo := View(q).fifo + [b])
  {
    hide EntriesOk, Distinctly;
    PushFifoEntries(q, b);
    PushFifoDistinct(q, b);
    NewTicket(q, PushFifo(q, b));
  }

  lemma {:induction false} PushHeapEntries(q: Fields, b: nat, stamp: nat)
    requires EntriesOk(q) && b !in q.entries
    ensures EntriesOk(PushHeap(q, b, stamp))
  {
    var r := PushHeap(q, b, stamp);
    forall i | 0 <= i < |r.fifo| ensures EntryOk(r, r.fifo[i]) { OldEntry(q, r, b, q.fifo[i]); }
    forall i | 0 <= i < |r.heap| ensures EntryOk(r, r.heap[i].entry) && r.heap[i].order <= r.order {
      if i < |q.heap| { OldEntry(q, r, b, q.heap[i].entry); }
    }
    forall c | c in r.entries ensures Queued(r, c) {
      if c == b {
        assert r.heap[|q.heap|].entry == Entry(r.entries[b], b);
      } else {
        assert Queued(q, c);
        if i :| 0 <= i < |q.heap| && q.heap[i].entry == Entry(q.entries[c], c) { assert r.heap[i].entry == Entry(r.entries[c], c); }
      }
    }
  }

  lemma {:induction false} PushHeapDistinct(q: Fields, b: nat, stamp: nat)
    requires EntriesOk(q) && Distinctly(q)
    ensures Distinctly(PushHeap(q, b, stamp))
  {
    assert forall i :: 0 <= i < |q.fifo| ==> EntryOk(q, q.fifo[i]);
    assert forall i :: 0 <= i < |q.heap| ==> EntryOk(q, q.heap[i].entry);
  }

  lemma {:induction false} PushHeapOk(q: Fields, b: nat, stamp: nat)
    requires FieldsOk(q) && b !in q.entries
    ensures FieldsOk(PushHeap(q, b, stamp))
    ensures View(PushHeap(q, b, stamp)) == FreeQueue(View(q).fifo, View(q).lru[b := (stamp, View(q).tick)], View(q).tick + 1)
  {
    hide EntriesOk, Distinctly;
    Members(q, b);
    PushHeapEntries(q, b, stamp);
    PushHeapDistinct(q, b, stamp);
    NewTicket(q, PushHeap(q, b, stamp));
  }

  // ----- removal from the ends -----

  function DropHead(q: Fields): Fields
    requires q.fifo != []
  {
    q.(fifo := q.fifo[1..])
  }

  lemma {:induction false} DropHeadEntries(q: Fields)
    requires EntriesOk(q) && q.fifo != [] && q.fifo[0].ticket !in q.valid
    ensures EntriesOk(DropHead(q))
  {
    var r := DropHead(q);
    forall i | 0 <= i < |r.fifo| ensures EntryOk(r, r.fifo[i]) { assert EntryOk(q, q.fifo[i + 1]); }
    forall i | 0 <= i < |r.heap| ensures EntryOk(r, r.heap[i].entry) { assert EntryOk(q, q.heap[i].entry); }
    forall c | c in r.entries ensures Queued(r, c) {
      assert Queued(q, c);
      if i :| 0 <= i < |q.fifo| && q.fifo[i] == Entry(q.entries[c], c) { assert r.fifo[i - 1] == Entry(r.entries[c], c); }
    }
  }

  /** A skipped head changes nothing. */
  lemma {:induction false} DropHeadOk(q: Fields)
    requires FieldsOk(q) && q.fifo != [] && q.fifo[0].ticket !in q.valid
    ensures FieldsOk(DropHead(q)) && View(DropHead(q)) == View(q)
  {
    hide EntriesOk;
    DropHeadEntries(q);
    LiveTail(q.fifo, q.valid, |q.fifo|);
  }

  function DropItem(q: Fields, k: nat): Fields
    requires k < |q.heap|
  {
    q.(heap := q.heap[..k] + q.heap[k + 1..])
  }

  lemma {:induction false} DropItemEntries(q: Fields, k: nat)
    requires EntriesOk(q) && k < |q.heap| && q.heap[k].entry.ticket !in q.valid
    ensures EntriesOk(DropItem(q, k))
  {
    var r := DropItem(q, k);
    assert forall i :: 0 <= i < |r.heap| ==> r.heap[i] == q.heap[if i < k then i else i + 1];
    forall i | 0 <= i < |r.fifo| ensures EntryOk(r, r.fifo[i]) { assert EntryOk(q, q.fifo[i]); }
    forall i | 0 <= i < |r.heap| ensures EntryOk(r, r.heap[i].entry) && r.heap[i].order <= r.order {
      assert EntryOk(q, q.heap[if i < k then i else i + 1].entry);
    }
    forall c | c in r.entries ensures Queued(r, c) {
      assert Queued(q, c);
      if i :| 0 <= i < |q.heap| && q.heap[i].entry == Entry(q.entries[c], c) {
        assert r.heap[if i < k then i else i - 1].entry == Entry(r.entries[c], c);
      }
    }
  }

  lemma {:induction false} DropItemDistinct(q: Fields, k: nat)
    requires Distinctly(q) && k < |q.heap|
    ensures Distinctly(DropItem(q, k))
  {
    var r := DropItem(q, k);
    assert forall i :: 0 <= i < |r.heap| ==> r.heap[i] == q.heap[if i < k then i else i + 1];
  }

  lemma {:induction false} DropItemOk(q: Fields, k: nat)
    requires FieldsOk(q) && k < |q.heap| && q.heap[k].entry.ticket !in q.valid
    ensures FieldsOk(DropItem(q, k)) && View(DropItem(q, k)) == View(q)
  {
    hide EntriesOk, Distinctly;
    DropItemEntries(q, k);
    DropItemDistinct(q, k);
    ItemsDrop(q.heap, q.valid, k, DropItem(q, k).heap, |DropItem(q, k).heap|);
  }

  // ----- which block comes out -----

  lemma {:induction false} ItemValue(heap: seq<Item>, valid: set<nat>, n: nat, b: nat) returns (i: nat)
    requires n <= |heap| && b in LiveItems(heap, valid, n)
    ensures i < n && heap[i].entry.block == b && heap[i].entry.ticket in valid
    ensures LiveItems(heap, valid, n)[b] == (heap[i].stamp, heap[i].order)
    decreases n
  {
    if heap[n - 1].entry.ticket in valid && heap[n - 1].entry.block == b {
      i := n - 1;
    } else {
      i := ItemValue(heap, valid, n - 1, b);
    }
  }

  predicate Precedes(a: Item, b: Item) {
    Older((a.stamp, a.order), (b.stamp, b.order))
  }

  /** The least valid item is the least recently touched block. */
  lemma {:induction false} LeastIsOldest(q: Fields, k: nat)
    requires FieldsOk(q) && k < |q.heap| && q.heap[k].entry.ticket in q.valid
    requires forall i :: 0 <= i < |q.heap| ==> Precedes(q.heap[k], q.heap[i])
    ensures IsOldest(View(q).lru, q.heap[k].entry.block)
  {
    var lru, b := View(q).lru, q.heap[k].entry.block;
    ItemMember(q.heap, q.valid, |q.heap|, b);
    var j := ItemValue(q.heap, q.valid, |q.heap|, b);
    assert EntryOk(q, q.heap[k].entry) && EntryOk(q, q.heap[j].entry);
    assert j == k;
    forall c | c in lru ensures Older(lru[b], lru[c]) {
      var i := ItemValue(q.heap, q.valid, |q.heap|, c);
      assert Precedes(q.heap[k], q.heap[i]);
    }
  }

  /** Insertion orders are distinct, so the least recently touched block is unique. */
  lemma {:induction false} TicksDistinct(q: Fields)
    requires FieldsOk(q)
    ensures DistinctTicks(View(q))
  {
    var lru := View(q).lru;
    forall b | b in lru ensures lru[b].1 < View(q).tick {
      var i := ItemValue(q.heap, q.valid, |q.heap|, b);
    }
    forall b, c | SameTick(lru, b, c) ensures b == c {
      var i := ItemValue(q.heap, q.valid, |q.heap|, b);
      var j := ItemValue(q.heap, q.valid, |q.heap|, c);
      assert i == j;
    }
  }

  /** Taking out a valid head. */
  lemma {:induction false} TakeHead(q: Fields, b: nat)
    requires FieldsOk(q) && q.fifo != [] && q.fifo[0].ticket in q.valid && b == q.fifo[0].block
    ensures b in q.entries && q.entries[b] == q.fifo[0].ticket
    ensures var r := DropHead(Invalidate(q, b));
      FieldsOk(r) && View(q).fifo != [] && (View(r), b) == PopQueue(View(q))
  {
    assert EntryOk(q, q.fifo[0]);
    var r := Invalidate(q, b);
    InvalidateOk(q, b);
    InvalidateView(q, b);
    DropHeadOk(r);
    LiveTail(q.fifo, q.valid, |q.fifo|);
    LiveDistinct(q, |q.fifo|);
    NotTwice(q, b);
    HeadWithout(View(q).fifo);
    assert View(q).lru - {b} == View(q).lru;
  }

  lemma {:induction false} HeadWithout(s: seq<nat>)
    requires s != [] && NoRepeats(s)
    ensures Without(s, s[0]) == s[1..]
  {
    assert s[0] !in s[1..];
    WithoutAbsent(s[1..], s[0]);
  }

  /** Taking out the least item when it is valid and the deque is empty. */
  lemma {:induction false} TakeLeast(q: Fields, k: nat, b: nat)
    requires FieldsOk(q) && q.fifo == [] && k < |q.heap| && q.heap[k].entry.ticket in q.valid && b == q.heap[k].entry.block
    requires forall i :: 0 <= i < |q.heap| ==> Precedes(q.heap[k], q.heap[i])
    ensures b in q.entries && q.entries[b] == q.heap[k].entry.ticket
    ensures var r := DropItem(Invalidate(q, b), k);
      FieldsOk(r) && |View(q).lru| > 0 && (View(r), b) == PopQueue(View(q))
  {
    assert EntryOk(q, q.heap[k].entry);
    LeastIsOldest(q, k);
    TicksDistinct(q);
    assert |View(q).lru| > 0;
    OldestUnique(View(q), b, Oldest(View(q).lru));
    InvalidateOk(q, b);
    InvalidateView(q, b);
    DropItemOk(Invalidate(q, b), k);
  }

  lemma {:induction false} NothingQueued(q: Fields)
    requires q.fifo == [] && q.heap == []
    ensures View(q).fifo == [] && View(q).lru == map[]
  {
  }

  lemma {:induction false} InsertedAnew(q: FreeQueue, b: nat, stamp: nat)
    ensures AppendedLru(q, b, stamp) == FreeQueue(Remove(q, b).fifo, Remove(q, b).lru[b := (stamp, q.tick)], q.tick + 1)
    ensures Remove(q, b).tick == q.tick
  {
    assert q.lru[b := (stamp, q.tick)] == (q.lru - {b})[b := (stamp, q.tick)];
  }

  // ----- the queue -----

  class FreeBlockQueue {
    var fifo: seq<Entry>
    var heap: seq<Item>
    var entries: map<nat, nat>
    var valid: set<nat>
    var tickets: nat
    var order: nat

    ghost function State(): Fields
      reads this
    {
      Fields(fifo, heap, entries, valid, tickets, order)
    }

    ghost predicate Valid()
      reads this
    {
      FieldsOk(State())
    }

    /** The plain queue it stands for. */
    ghost function Queue(): FreeQueue
      reads this
    {
      View(State())
    }

    constructor ()
      ensures Valid() && Queue() == FreeQueue([], map[], 1)
    {
      fifo, heap, entries, valid, tickets, order := [], [], map[], {}, 0, 0;
    }

    method Length() returns (n: nat)
      requires Valid()
      ensures n == |Queue().fifo| + |Queue().lru|
    {
      n := |entries|;
    }

    method Contains(b: nat) returns (found: bool)
      requires Valid()
      ensures found <==> b in Queue().fifo || b in Queue().lru
    {
      Members(State(), b);
      found := b in entries;
    }

    /** Takes `b` out if it is queued, wherever it is. */
    method RemoveBlock(b: nat)
      requires Valid()
      modifies this
      ensures Valid() && Queue() == Remove(old(Queue()), b) && b !in entries
    {
      InvalidateOk(State(), b);
      InvalidateView(State(), b);
      if b in entries {
        valid := valid - {entries[b]};
        entries := entries - {b};
      }
    }

    method Append(b: nat)
      requires Valid()
      modifies this
      ensures Valid() && Queue() == Appended(old(Queue()), b)
    {
      hide FieldsOk, View;
      RemoveBlock(b);
      ghost var before := State();
      PushFifoOk(before, b);
      fifo := fifo + [Entry(tickets, b)];
      entries := entries[b := tickets];
      valid := valid + {tickets};
      tickets := tickets + 1;
      assert State() == PushFifo(before, b);
    }

    method AppendUnique(b: nat)
      requires Valid()
      modifies this
      ensures Valid()
      ensures Queue() == if b in old(Queue()).fifo || b in old(Queue()).lru then old(Queue()) else Appended(old(Queue()), b)
    {
      var queued := Contains(b);
      if !queued { Append(b); }
    }

    method AppendLru(b: nat, stamp: nat)
      requires Valid()
      modifies this
      ensures Valid() && Queue() == AppendedLru(old(Queue()), b, stamp)
    {
      hide FieldsOk, View, AppendedLru, Remove;
      InsertedAnew(Queue(), b, stamp);
      RemoveBlock(b);
      ghost var before := State();
      PushHeapOk(before, b, stamp);
      order := order + 1;
      heap := heap + [Item(stamp, order, Entry(tickets, b))];
      entries := entries[b := tickets];
      valid := valid + {tickets};
      tickets := tickets + 1;
      assert State() == PushHeap(before, b, stamp);
    }

    method LeastItem() returns (k: nat)
      requires heap != []
      ensures k < |heap| && forall i :: 0 <= i < |heap| ==> Precedes(heap[k], heap[i])
    {
      k := 0;
      for n := 1 to |heap|
        invariant k < n && forall i :: 0 <= i < n ==> Precedes(heap[k], heap[i])
      {
        if !Precedes(heap[k], heap[n]) { k := n; }
      }
    }

    /** Skips invalidated entries; hands out the first queued block, uncached ones before cached ones. */
    method PopLeft() returns (result: Option<nat>)
      requires Valid()
      modifies this
      ensures Valid()
      ensures result.None? <==> |old(Queue()).fifo| + |old(Queue()).lru| == 0
      ensures result.Some? ==> (Queue(), result.value) == PopQueue(old(Queue()))
      ensures result.None? ==> Queue() == old(Queue())
    {
      hide FieldsOk, View, PopQueue;
      while fifo != []
        invariant Valid() && Queue() == old(Queue())
        decreases |fifo|
      {
        var entry := fifo[0];
        if entry.ticket in valid {
          ghost var before := State();
          TakeHead(before, entry.block);
          valid := valid - {entry.ticket};
          entries := entries - {entry.block};
          fifo := fifo[1..];
          assert State() == DropHead(Invalidate(before, entry.block));
          return Some(entry.block);
        }
        DropHeadOk(State());
        ghost var skipped := DropHead(State());
        fifo := fifo[1..];
        assert State() == skipped;
      }
      while heap != []
        invariant Valid() && Queue() == old(Queue()) && fifo == []
        decreases |heap|
      {
        var k := LeastItem();
        var entry := heap[k].entry;
        if entry.ticket in valid {
          ghost var before := State();
          TakeLeast(before, k, entry.block);
          valid := valid - {entry.ticket};
          entries := entries - {entry.block};
          heap := heap[..k] + heap[k + 1..];
          assert State() == DropItem(Invalidate(before, entry.block), k);
          return Some(entry.block);
        }
        DropItemOk(State(), k);
        ghost var skipped := DropItem(State(), k);
        heap := heap[..k] + heap[k + 1..];
        assert State() == skipped;
      }
      NothingQueued(State());
      result := None;
    }
  }
}
