/**
 The file-backed page store (gcos/osprims/vmem.py). Slots are handed out by a
 bump allocator and never reclaimed; madvise leaves the contents unchanged. The
 hardware page size is a parameter.
 */
module PageStore {
  import opened Basics

  /** Keys are opaque: only equality is used. */
  type Key = nat

  // ----- what the store promises: a dictionary with paging counters -----

  /** `out` holds the paged-out keys; `replaced` counts paged-out entries that a new store displaced. */
  datatype Book = Book(contents: map<Key, seq<byte>>, out: set<Key>, used: nat,
                       pageOuts: nat, faultIns: nat, replaced: nat)

  datatype Op = Store(key: Key, data: seq<byte>) | PageOut(key: Key) | Read(key: Key)

  datatype Reply = Stored | OutOfSlots | Evicted(done: bool) | Bytes(data: seq<byte>) | NoSuchKey

  function Slots(page: nat, n: nat): (slots: nat)
    requires page > 0
    ensures slots >= 1 && n <= slots * page
    ensures slots > 1 ==> (slots - 1) * page < n
  {
    SlotArithmetic(page, n);
    if (n + page - 1) / page > 1 then (n + page - 1) / page else 1
  }

  lemma {:induction false} SlotArithmetic(page: nat, n: nat)
    requires page > 0
    ensures var k := (n + page - 1) / page; n <= k * page < n + page
  {
    var k := (n + page - 1) / page;
    assert n + page - 1 == k * page + (n + page - 1) % page;
  }

  predicate Fits(page: nat, cap: nat, b: Book, data: seq<byte>)
    requires page > 0
  {
    b.used + Slots(page, |data|) * page <= cap
  }

  function Act(page: nat, cap: nat, b: Book, op: Op): (Book, Reply)
    requires page > 0
  {
    match op
    case Store(k, data) =>
      if !Fits(page, cap, b, data) then (b, OutOfSlots)
      else (b.(contents := b.contents[k := data], out := b.out - {k}, used := b.used + Slots(page, |data|) * page,
               replaced := if k in b.out then b.replaced + 1 else b.replaced), Stored)
    case PageOut(k) =>
      if k !in b.contents || k in b.out then (b, Evicted(false))
      else (b.(out := b.out + {k}, pageOuts := b.pageOuts + 1), Evicted(true))
    case Read(k) =>
      if k !in b.contents then (b, NoSuchKey)
      else (b.(out := b.out - {k}, faultIns := if k in b.out then b.faultIns + 1 else b.faultIns), Bytes(b.contents[k]))
  }

  function Run(page: nat, cap: nat, b: Book, ops: seq<Op>): (Book, seq<Reply>)
    requires page > 0
    decreases |ops|
  {
    if ops == [] then (b, [])
    else
      var (b', r) := Act(page, cap, b, ops[0]);
      var (t, rs) := Run(page, cap, b', ops[1..]);
      (t, [r] + rs)
  }

  /** What was last stored successfully under `k`, judged from the history alone. */
  function LastStored(k: Key, ops: seq<Op>, rs: seq<Reply>, start: Option<seq<byte>>): Option<seq<byte>>
    requires |ops| == |rs|
    decreases |ops|
  {
    if ops == [] then start
    else LastStored(k, ops[1..], rs[1..],
                    if ops[0].Store? && ops[0].key == k && rs[0].Stored? then Some(ops[0].data) else start)
  }

  function Lookup(b: Book, k: Key): Option<seq<byte>> {
    if k in b.contents then Some(b.contents[k]) else None
  }

  lemma {:induction false} ContentsAreLastStored(page: nat, cap: nat, b: Book, ops: seq<Op>, k: Key)
    requires page > 0
    ensures var (t, rs) := Run(page, cap, b, ops);
      |rs| == |ops| && Lookup(t, k) == LastStored(k, ops, rs, Lookup(b, k))
    decreases |ops|
  {
    if ops != [] {
      var (b', r) := Act(page, cap, b, ops[0]);
      ContentsAreLastStored(page, cap, b', ops[1..], k);
      var (t, rs) := Run(page, cap, b, ops);
      assert rs[1..] == Run(page, cap, b', ops[1..]).1;
    }
  }

  /** Allotted by a history: the slots of every store that succeeded, whatever was replaced. */
  function Allotted(page: nat, ops: seq<Op>, rs: seq<Reply>): nat
    requires page > 0 && |ops| == |rs|
  {
    if ops == [] then 0
    else
      (if ops[0].Store? && rs[0].Stored? then Slots(page, |ops[0].data|) * page else 0)
      + Allotted(page, ops[1..], rs[1..])
  }

  lemma {:induction false} UsedIsAllotted(page: nat, cap: nat, b: Book, ops: seq<Op>)
    requires page > 0
    ensures var (t, rs) := Run(page, cap, b, ops); |rs| == |ops| && t.used == b.used + Allotted(page, ops, rs)
    decreases |ops|
  {
    if ops != [] {
      var (b', r) := Act(page, cap, b, ops[0]);
      UsedIsAllotted(page, cap, b', ops[1..]);
      var rs := Run(page, cap, b, ops).1;
      assert rs[1..] == Run(page, cap, b', ops[1..]).1;
    }
  }

  lemma {:induction false} RunPrefix(page: nat, cap: nat, b: Book, ops: seq<Op>, i: nat)
    requires page > 0 && i < |ops|
    ensures var rs, (t, ss) := Run(page, cap, b, ops).1, Run(page, cap, b, ops[..i]);
      |rs| == |ops| && ss == rs[..i] && rs[i] == Act(page, cap, t, ops[i]).1
    decreases |ops|
  {
    var (b', r) := Act(page, cap, b, ops[0]);
    ContentsAreLastStored(page, cap, b, ops, 0);
    var rs := Run(page, cap, b, ops).1;
    assert rs[1..] == Run(page, cap, b', ops[1..]).1;
    if i > 0 {
      RunPrefix(page, cap, b', ops[1..], i - 1);
      assert ops[..i][1..] == ops[1..][..i - 1];
    }
  }

  /**
   Every reply, judged from the history before it: a read returns what was last
   stored under its key, and a store is refused exactly when the slots handed
   out so far leave too few.
   */
  lemma {:induction false} RepliesFollowTheHistory(page: nat, cap: nat, ops: seq<Op>, i: nat)
    requires page > 0 && i < |ops|
    ensures var rs := Run(page, cap, Empty(), ops).1;
      && |rs| == |ops|
      && (ops[i].Read? ==>
            var last := LastStored(ops[i].key, ops[..i], rs[..i], None);
            rs[i] == if last.Some? then Bytes(last.value) else NoSuchKey)
      && (ops[i].Store? ==>
            var need := Slots(page, |ops[i].data|) * page;
            rs[i] == if Allotted(page, ops[..i], rs[..i]) + need <= cap then Stored else OutOfSlots)
  {
    RunPrefix(page, cap, Empty(), ops, i);
    ContentsAreLastStored(page, cap, Empty(), ops[..i], ops[i].key);
    UsedIsAllotted(page, cap, Empty(), ops[..i]);
  }

  /** The counters account for every entry that is out, and the slots in use fit. */
  ghost predicate Balanced(cap: nat, b: Book) {
    && b.out <= b.contents.Keys
    && b.pageOuts == b.faultIns + |b.out| + b.replaced
    && b.used <= cap
  }

  lemma {:induction false} ActKeepsBalance(page: nat, cap: nat, b: Book, op: Op)
    requires page > 0 && Balanced(cap, b)
    ensures Balanced(cap, Act(page, cap, b, op).0)
  {
    var k := op.key;
    if k in b.out {
      assert b.out == (b.out - {k}) + {k};
    } else {
      assert b.out - {k} == b.out;
    }
  }

  /** Over any history: page-outs minus fault-ins is what is out now, plus what was displaced while out. */
  lemma {:induction false} CountersBalance(page: nat, cap: nat, b: Book, ops: seq<Op>)
    requires page > 0 && Balanced(cap, b)
    ensures Balanced(cap, Run(page, cap, b, ops).0)
    decreases |ops|
  {
    if ops != [] {
      ActKeepsBalance(page, cap, b, ops[0]);
      CountersBalance(page, cap, Act(page, cap, b, ops[0]).0, ops[1..]);
    }
  }

  function Empty(): Book {
    Book(map[], {}, 0, 0, 0, 0)
  }

  // ----- the store itself -----

  /** `reserved` is the extent in bytes: the number of slots times the page size. */
  datatype PageRef = PageRef(offset: nat, length: nat, reserved: nat, resident: bool)

  type Pages = map<Key, PageRef>

  /** The extents that two entries reserve do not overlap. */
  predicate Apart(r: PageRef, s: PageRef) {
    r.offset + r.reserved <= s.offset || s.offset + s.reserved <= r.offset
  }

  /** Extents lie below the allocation mark and are pairwise disjoint. */
  ghost predicate Layout(pages: Pages, mark: nat) {
    && (forall k :: k in pages ==> pages[k].length <= pages[k].reserved && pages[k].offset + pages[k].reserved <= mark)
    && (forall j, k :: j in pages && k in pages && j != k ==> Apart(pages[j], pages[k]))
  }

  function Slice(mem: seq<byte>, r: PageRef): seq<byte> {
    if r.offset + r.length <= |mem| then mem[r.offset..r.offset + r.length] else []
  }

  function ContentsOf(mem: seq<byte>, pages: Pages): map<Key, seq<byte>> {
    map k | k in pages :: Slice(mem, pages[k])
  }

  function OutOf(pages: Pages): set<Key> {
    set k | k in pages && !pages[k].resident
  }

  lemma {:induction false} SliceBelow(mem: seq<byte>, mem': seq<byte>, mark: nat, r: PageRef)
    requires mark <= |mem| == |mem'| && mem'[..mark] == mem[..mark] && r.offset + r.length <= mark
    ensures Slice(mem', r) == Slice(mem, r)
  {
    assert mem'[r.offset..r.offset + r.length] == mem'[..mark][r.offset..r.offset + r.length];
    assert mem[r.offset..r.offset + r.length] == mem[..mark][r.offset..r.offset + r.length];
  }

  /** Writing above the mark leaves every other entry as it was. */
  lemma {:induction false} StoreChangesOneEntry(
      mem: seq<byte>, mem': seq<byte>, pages: Pages, mark: nat, key: Key, r: PageRef)
    requires Layout(pages, mark) && mark <= |mem| == |mem'| && mem'[..mark] == mem[..mark]
    ensures ContentsOf(mem', pages[key := r]) == ContentsOf(mem, pages)[key := Slice(mem', r)]
  {
    forall k | k in pages
      ensures Slice(mem', pages[k]) == Slice(mem, pages[k])
    {
      SliceBelow(mem, mem', mark, pages[k]);
    }
  }

  lemma {:induction false} StoreKeepsLayout(pages: Pages, mark: nat, key: Key, r: PageRef)
    requires Layout(pages, mark) && r.offset == mark && r.resident && r.length <= r.reserved
    ensures Layout(pages[key := r], mark + r.reserved)
    ensures OutOf(pages[key := r]) == OutOf(pages) - {key}
  {
  }

  function Flagged(pages: Pages, key: Key, resident: bool): Pages
    requires key in pages
  {
    pages[key := pages[key].(resident := resident)]
  }

  lemma {:induction false} FlagKeepsContents(mem: seq<byte>, pages: Pages, key: Key, resident: bool)
    requires key in pages
    ensures ContentsOf(mem, Flagged(pages, key, resident)) == ContentsOf(mem, pages)
    ensures OutOf(Flagged(pages, key, resident)) == if resident then OutOf(pages) - {key} else OutOf(pages) + {key}
  {
    var pages' := Flagged(pages, key, resident);
    assert forall k :: k in pages ==> k in pages' && Slice(mem, pages'[k]) == Slice(mem, pages[k]);
  }

  lemma {:induction false} ResidentIsIn(pages: Pages, key: Key)
    requires key in pages && pages[key].resident
    ensures key !in OutOf(pages) && OutOf(pages) - {key} == OutOf(pages)
  {
  }

  lemma {:induction false} FlagKeepsLayout(pages: Pages, mark: nat, key: Key, resident: bool)
    requires key in pages && Layout(pages, mark)
    ensures Layout(Flagged(pages, key, resident), mark)
  {
  }

  class MmapPageStore {
    const page: nat
    const mm: array<byte>
    var nextOff: nat
    var pages: Pages
    var faultIns: nat
    var pageOuts: nat
    ghost var replaced: nat

    ghost predicate Valid()
      reads this
    {
      page > 0 && nextOff <= mm.Length && Layout(pages, nextOff)
    }

    ghost function Value(): Book
      reads this, mm
    {
      Book(ContentsOf(mm[..], pages), OutOf(pages), nextOff, pageOuts, faultIns, replaced)
    }

    constructor (page: nat, capacityPages: nat)
      requires page > 0
      ensures Valid() && fresh(mm) && this.page == page && mm.Length == capacityPages * page
      ensures Value() == Empty()
    {
      this.page := page;
      mm := new byte[capacityPages * page](_ => 0);
      nextOff, pages, faultIns, pageOuts, replaced := 0, map[], 0, 0, 0;
    }

    method StorePage(key: Key, data: seq<byte>) returns (ok: bool)
      requires Valid()
      modifies this, mm
      ensures Valid()
      ensures (Value(), if ok then Stored else OutOfSlots) == Act(page, mm.Length, old(Value()), Store(key, data))
    {
      var need := Slots(page, |data|) * page;
      if nextOff + need > mm.Length {
        return false;
      }
      ghost var mem := mm[..];
      CopyIn(nextOff, data);
      if key in pages && !pages[key].resident {
        replaced := replaced + 1;
      }
      var ref := PageRef(nextOff, |data|, need, true);
      StoreChangesOneEntry(mem, mm[..], pages, nextOff, key, ref);
      StoreKeepsLayout(pages, nextOff, key, ref);
      assert Slice(mm[..], ref) == data;
      pages := pages[key := ref];
      nextOff := nextOff + need;
      return true;
    }

    method CopyIn(off: nat, data: seq<byte>)
      requires off + |data| <= mm.Length
      modifies mm
      ensures mm[..off] == old(mm[..off]) && mm[off..off + |data|] == data
    {
      for i := 0 to |data|
        invariant mm[..off] == old(mm[..off]) && mm[off..off + i] == data[..i]
      {
        mm[off + i] := data[i];
        assert mm[off..off + i + 1] == mm[off..off + i] + [data[i]];
      }
    }

    method PageOutKey(key: Key) returns (done: bool)
      requires Valid()
      modifies this
      ensures Valid()
      ensures (Value(), Evicted(done)) == Act(page, mm.Length, old(Value()), PageOut(key))
    {
      if key !in pages || !pages[key].resident {
        return false;
      }
      FlagKeepsContents(mm[..], pages, key, false);
      FlagKeepsLayout(pages, nextOff, key, false);
      pages := Flagged(pages, key, false);
      pageOuts := pageOuts + 1;
      return true;
    }

    method ReadPage(key: Key) returns (r: Option<seq<byte>>)
      requires Valid()
      modifies this
      ensures Valid()
      ensures (Value(), if r.Some? then Bytes(r.value) else NoSuchKey) == Act(page, mm.Length, old(Value()), Read(key))
    {
      if key !in pages {
        return None;
      }
      var ref := pages[key];
      if !ref.resident {
        FlagKeepsContents(mm[..], pages, key, true);
        FlagKeepsLayout(pages, nextOff, key, true);
        faultIns := faultIns + 1;
        pages := Flagged(pages, key, true);
      } else {
        ResidentIsIn(pages, key);
      }
      r := Some(mm[ref.offset..ref.offset + ref.length]);
      assert r.value == Slice(mm[..], ref);
    }

    method Do(op: Op) returns (r: Reply)
      requires Valid()
      modifies this, mm
      ensures Valid() && (Value(), r) == Act(page, mm.Length, old(Value()), op)
    {
      match op {
        case Store(k, data) =>
          var ok := StorePage(k, data);
          r := if ok then Stored else OutOfSlots;
        case PageOut(k) =>
          var done := PageOutKey(k);
          r := Evicted(done);
        case Read(k) =>
          var data := ReadPage(k);
          r := if data.Some? then Bytes(data.value) else NoSuchKey;
      }
    }
  }

  /** Any history on a fresh store answers as the dictionary does. */
  method Serve(page: nat, capacityPages: nat, ops: seq<Op>) returns (rs: seq<Reply>)
    requires page > 0
    ensures rs == Run(page, capacityPages * page, Empty(), ops).1
  {
    var store := new MmapPageStore(page, capacityPages);
    rs := [];
    ghost var cap := capacityPages * page;
    for i := 0 to |ops|
      invariant store.Valid() && store.page == page && store.mm.Length == cap && fresh(store) && fresh(store.mm)
      invariant Run(page, cap, Empty(), ops).1 == rs + Run(page, cap, store.Value(), ops[i..]).1
    {
      assert ops[i..][0] == ops[i] && ops[i..][1..] == ops[i + 1..];
      ghost var rest := Run(page, cap, Act(page, cap, store.Value(), ops[i]).0, ops[i + 1..]).1;
      var r := store.Do(ops[i]);
      assert rs + ([r] + rest) == rs + [r] + rest;
      rs := rs + [r];
    }
  }
}
