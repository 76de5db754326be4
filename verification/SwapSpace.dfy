/**
 Swap-out and restore (gcos/memory/swap.py). An agent's swap directory is the
 list of its files in name order; one file per swap-out event, named by a stamp.
 */
module SwapSpace {
  import opened Basics
  import opened Pages
  import opened Pager

  // ----- serialisation -----

  datatype Json = Text(s: string) | Number(n: int) | Flag(b: bool)

  type Entry = map<string, Json>

  function Serialize(p: Page): Entry {
    map["role" := Text(p.role), "content" := Text(p.content), "tokens" := Number(p.tokens),
        "pinned" := Flag(p.pinned), "summarized" := Flag(p.summarized), "last_access" := Number(p.lastAccess)]
  }

  function NumberOr(d: Entry, key: string, default: int): int {
    if key in d && d[key].Number? then d[key].n else default
  }

  function FlagOr(d: Entry, key: string, default: bool): bool {
    if key in d && d[key].Flag? then d[key].b else default
  }

  /** None models the KeyError of a missing role or content; the rest has defaults. */
  function Deserialize(d: Entry, now: int): Option<Page> {
    if "role" in d && d["role"].Text? && "content" in d && d["content"].Text? then
      Some(Page(d["role"].s, d["content"].s, NumberOr(d, "tokens", 0), NumberOr(d, "last_access", now),
                FlagOr(d, "pinned", false), FlagOr(d, "summarized", false)))
    else None
  }

  lemma {:induction false} RoundTrip(p: Page, now: int)
    ensures Deserialize(Serialize(p), now) == Some(p)
  {
    assert Serialize(p)["role"] == Text(p.role) && Serialize(p)["content"] == Text(p.content);
  }

  function SerializeAll(ps: seq<Page>): seq<Entry> {
    if ps == [] then [] else [Serialize(ps[0])] + SerializeAll(ps[1..])
  }

  /** Read entries in order; None if one of them is malformed. */
  function ReadAll(es: seq<Entry>, now: int): Option<seq<Page>> {
    if es == [] then Some([])
    else
      var p, rest := Deserialize(es[0], now), ReadAll(es[1..], now);
      if p.None? || rest.None? then None else Some([p.value] + rest.value)
  }

  lemma {:induction false} RoundTripAll(ps: seq<Page>, now: int)
    ensures ReadAll(SerializeAll(ps), now) == Some(ps)
  {
    if ps != [] {
      RoundTrip(ps[0], now);
      RoundTripAll(ps[1..], now);
      assert SerializeAll(ps)[1..] == SerializeAll(ps[1..]);
      assert [ps[0]] + ps[1..] == ps;
    }
  }

  // ----- the directory -----

  datatype File = File(stamp: int, entries: seq<Entry>)

  predicate Listed(fs: seq<File>) {
    forall i, j :: 0 <= i < j < |fs| ==> fs[i].stamp < fs[j].stamp
  }

  predicate HasStamp(fs: seq<File>, stamp: int) {
    exists i :: 0 <= i < |fs| && fs[i].stamp == stamp
  }

  /** `write_text`: a file of the same name is overwritten. */
  function Write(fs: seq<File>, f: File): seq<File> {
    if fs == [] || f.stamp < fs[0].stamp then [f] + fs
    else if f.stamp == fs[0].stamp then [f] + fs[1..]
    else [fs[0]] + Write(fs[1..], f)
  }

  /** All pages on disk, in file-name order. */
  function OnDisk(fs: seq<File>, now: int): Option<seq<Page>> {
    if fs == [] then Some([])
    else
      var ps, rest := ReadAll(fs[0].entries, now), OnDisk(fs[1..], now);
      if ps.None? || rest.None? then None else Some(ps.value + rest.value)
  }

  /** What the file of that name holds now. */
  function Overwritten(fs: seq<File>, stamp: int, now: int): seq<Page> {
    if fs == [] then []
    else if fs[0].stamp == stamp then
      var r := ReadAll(fs[0].entries, now); if r.Some? then r.value else []
    else Overwritten(fs[1..], stamp, now)
  }

  lemma {:induction false} WriteKeepsListed(fs: seq<File>, f: File)
    requires Listed(fs)
    ensures Listed(Write(fs, f))
    ensures forall i :: 0 <= i < |Write(fs, f)| ==>
              Write(fs, f)[i].stamp == f.stamp || HasStamp(fs, Write(fs, f)[i].stamp)
  {
    if fs != [] && f.stamp > fs[0].stamp {
      WriteKeepsListed(fs[1..], f);
      var r := Write(fs[1..], f);
      forall i | 0 <= i < |r|
        ensures r[i].stamp > fs[0].stamp && (r[i].stamp == f.stamp || HasStamp(fs, r[i].stamp))
      {
        if r[i].stamp != f.stamp {
          var k :| 0 <= k < |fs[1..]| && fs[1..][k].stamp == r[i].stamp;
          assert fs[k + 1].stamp == r[i].stamp;
        }
      }
    } else {
      forall i | 0 <= i < |fs|
        ensures HasStamp(fs, fs[i].stamp)
      {
      }
    }
  }

  lemma {:induction false} NoSuchFile(fs: seq<File>, stamp: int, now: int)
    requires forall i :: 0 <= i < |fs| ==> fs[i].stamp != stamp
    ensures Overwritten(fs, stamp, now) == []
  {
    if fs != [] {
      NoSuchFile(fs[1..], stamp, now);
    }
  }

  lemma {:induction false} OnDiskCons(f: File, fs: seq<File>, now: int)
    requires ReadAll(f.entries, now).Some? && OnDisk(fs, now).Some?
    ensures OnDisk([f] + fs, now).Some?
    ensures multiset(OnDisk([f] + fs, now).value)
         == multiset(ReadAll(f.entries, now).value) + multiset(OnDisk(fs, now).value)
  {
    assert ([f] + fs)[1..] == fs;
  }

  /** Disk contents after a write: what was there, minus an overwritten file, plus the new file. */
  lemma {:induction false} WriteContents(fs: seq<File>, f: File, ps: seq<Page>, now: int)
    requires Listed(fs) && OnDisk(fs, now).Some? && ReadAll(f.entries, now) == Some(ps)
    ensures OnDisk(Write(fs, f), now).Some?
    ensures multiset(OnDisk(Write(fs, f), now).value) + multiset(Overwritten(fs, f.stamp, now))
         == multiset(OnDisk(fs, now).value) + multiset(ps)
  {
    if fs == [] || f.stamp < fs[0].stamp {
      OnDiskCons(f, fs, now);
      NoSuchFile(fs, f.stamp, now);
    } else {
      var rest := fs[1..];
      OnDiskCons(fs[0], rest, now);
      assert [fs[0]] + rest == fs;
      if f.stamp == fs[0].stamp {
        OnDiskCons(f, rest, now);
        Rotate(multiset(ps), multiset(OnDisk(rest, now).value), multiset(Overwritten(fs, f.stamp, now)));
      } else {
        WriteContents(rest, f, ps, now);
        OnDiskCons(fs[0], Write(rest, f), now);
        AddBoth(multiset(ReadAll(fs[0].entries, now).value), multiset(OnDisk(Write(rest, f), now).value),
                multiset(Overwritten(rest, f.stamp, now)), multiset(OnDisk(rest, now).value), multiset(ps));
      }
    }
  }

  lemma {:induction false} Rotate(a: multiset<Page>, b: multiset<Page>, c: multiset<Page>)
    ensures (a + b) + c == (c + b) + a
  {
  }

  lemma {:induction false} AddBoth(
      a: multiset<Page>, b: multiset<Page>, c: multiset<Page>, d: multiset<Page>, e: multiset<Page>)
    requires b + c == d + e
    ensures (a + b) + c == (a + d) + e
  {
    assert (a + b) + c == a + (b + c);
  }

  // ----- swapping out and in -----

  datatype Memory = Memory(pages: seq<Page>, files: seq<File>)

  function SwapOut(m: Memory, n: nat, minKeep: nat, stamp: int): Memory {
    if |Loose(m.pages)| <= minKeep then m
    else
      var batch := SwapBatch(m.pages, n, minKeep);
      Memory(RemoveAll(m.pages, batch), Write(m.files, File(stamp, SerializeAll(batch))))
  }

  /** `swap_in` appends everything on disk and deletes nothing. */
  function SwapIn(m: Memory, now: int): Option<Memory> {
    var ps := OnDisk(m.files, now);
    if ps.None? then None else Some(m.(pages := m.pages + ps.value))
  }

  ghost predicate Sound(m: Memory, now: int) {
    Listed(m.files) && OnDisk(m.files, now).Some?
  }

  /** Pages in memory together with pages on disk. */
  ghost function Total(m: Memory, now: int): multiset<Page>
    requires OnDisk(m.files, now).Some?
  {
    multiset(m.pages) + multiset(OnDisk(m.files, now).value)
  }

  /** A swap-out loses exactly the pages of a file it overwrites. */
  lemma {:induction false} SwapOutLoses(m: Memory, n: nat, minKeep: nat, stamp: int, now: int)
    requires Sound(m, now) && |Loose(m.pages)| > minKeep
    ensures var m' := SwapOut(m, n, minKeep, stamp);
      Sound(m', now) && Total(m', now) + multiset(Overwritten(m.files, stamp, now)) == Total(m, now)
  {
    var batch := SwapBatch(m.pages, n, minKeep);
    var f := File(stamp, SerializeAll(batch));
    SwapKeeps(m.pages, n, minKeep, {});
    RemoveAllMultiset(m.pages, batch);
    RoundTripAll(batch, now);
    WriteKeepsListed(m.files, f);
    WriteContents(m.files, f, batch, now);
    Rebalance(multiset(RemoveAll(m.pages, batch)), multiset(batch), multiset(m.pages),
              multiset(OnDisk(Write(m.files, f), now).value), multiset(Overwritten(m.files, stamp, now)),
              multiset(OnDisk(m.files, now).value));
  }

  lemma {:induction false} Rebalance(
      kept: multiset<Page>, batch: multiset<Page>, all: multiset<Page>,
      disk': multiset<Page>, lost: multiset<Page>, disk: multiset<Page>)
    requires kept + batch == all && disk' + lost == disk + batch
    ensures (kept + disk') + lost == all + disk
  {
    assert (kept + disk') + lost == kept + (disk' + lost);
  }

  /** So it conserves pages exactly when it swaps nothing or the stamp's file holds no page. */
  lemma {:induction false} SwapOutConserves(m: Memory, n: nat, minKeep: nat, stamp: int, now: int)
    requires Sound(m, now)
    ensures Sound(SwapOut(m, n, minKeep, stamp), now)
    ensures Total(SwapOut(m, n, minKeep, stamp), now) == Total(m, now)
       <==> (|Loose(m.pages)| <= minKeep || Overwritten(m.files, stamp, now) == [])
  {
    if |Loose(m.pages)| > minKeep {
      SwapOutLoses(m, n, minKeep, stamp, now);
      var lost := Overwritten(m.files, stamp, now);
      assert |multiset(lost)| == |lost|;
      assert |Total(SwapOut(m, n, minKeep, stamp), now)| + |lost| == |Total(m, now)|;
    }
  }

  datatype Request = Request(n: nat, minKeep: nat, stamp: int)

  function SwapRun(m: Memory, rs: seq<Request>): Memory
    decreases |rs|
  {
    if rs == [] then m else SwapRun(SwapOut(m, rs[0].n, rs[0].minKeep, rs[0].stamp), rs[1..])
  }

  /** No two requests use the same stamp, and none the stamp of an existing file. */
  predicate FreshStamps(m: Memory, rs: seq<Request>) {
    && (forall i, j :: 0 <= i < j < |rs| ==> rs[i].stamp != rs[j].stamp)
    && (forall i :: 0 <= i < |rs| ==> !HasStamp(m.files, rs[i].stamp))
  }

  /** Any run of swap-outs keeps the pages, wherever they are. */
  lemma {:induction false} SwapRunConserves(m: Memory, rs: seq<Request>, now: int)
    requires Sound(m, now) && FreshStamps(m, rs)
    ensures Sound(SwapRun(m, rs), now) && Total(SwapRun(m, rs), now) == Total(m, now)
    decreases |rs|
  {
    if rs != [] {
      var m' := SwapOut(m, rs[0].n, rs[0].minKeep, rs[0].stamp);
      assert !HasStamp(m.files, rs[0].stamp);
      NoSuchFile(m.files, rs[0].stamp, now);
      SwapOutConserves(m, rs[0].n, rs[0].minKeep, rs[0].stamp, now);
      var f := File(rs[0].stamp, SerializeAll(SwapBatch(m.pages, rs[0].n, rs[0].minKeep)));
      WriteKeepsListed(m.files, f);
      forall i | 0 <= i < |rs[1..]|
        ensures !HasStamp(m'.files, rs[1..][i].stamp)
      {
        assert rs[1..][i] == rs[i + 1];
      }
      SwapRunConserves(m', rs[1..], now);
    }
  }

  /** Starting with an empty directory, one restore brings back exactly the original pages. */
  lemma {:induction false} OneRestoreIsLossless(ps: seq<Page>, rs: seq<Request>, now: int)
    requires forall i, j :: 0 <= i < j < |rs| ==> rs[i].stamp != rs[j].stamp
    ensures var m := SwapIn(SwapRun(Memory(ps, []), rs), now);
      m.Some? && multiset(m.value.pages) == multiset(ps)
  {
    var m := Memory(ps, []);
    SwapRunConserves(m, rs, now);
    var r := SwapRun(m, rs);
    assert multiset(r.pages + OnDisk(r.files, now).value) == Total(r, now);
  }

  /** The files stay, so a second restore duplicates every swapped page. */
  lemma {:induction false} SecondRestoreDuplicates(m: Memory, now: int)
    requires Sound(m, now)
    ensures var twice, disk := SwapIn(SwapIn(m, now).value, now).value, OnDisk(m.files, now).value;
      twice.pages == m.pages + disk + disk && twice.files == m.files
  {
  }

  /** The inner loop of `swap_in`: append the pages of one file. */
  method RestoreFile(pages: seq<Page>, es: seq<Entry>, now: int) returns (r: Option<seq<Page>>)
    ensures r == var part := ReadAll(es, now); if part.None? then None else Some(pages + part.value)
  {
    var ps := pages;
    ghost var part := ReadAll(es, now);
    for j := 0 to |es|
      invariant var rest := ReadAll(es[j..], now);
        if part.None? then rest.None? else rest.Some? && ps + rest.value == pages + part.value
    {
      assert es[j..][1..] == es[j + 1..];
      var p := Deserialize(es[j], now);
      if p.None? {
        return None;
      }
      ps := ps + [p.value];
    }
    assert es[|es|..] == [] && ps + [] == ps;
    return Some(ps);
  }

  /** The outer loop of `swap_in`: files in name order. */
  method RestorePages(pages: seq<Page>, files: seq<File>, now: int) returns (r: Option<seq<Page>>)
    ensures r == var m := SwapIn(Memory(pages, files), now); if m.None? then None else Some(m.value.pages)
  {
    var ps := pages;
    ghost var goal := OnDisk(files, now);
    for i := 0 to |files|
      invariant var rest := OnDisk(files[i..], now);
        if goal.None? then rest.None? else rest.Some? && ps + rest.value == pages + goal.value
    {
      assert files[i..][1..] == files[i + 1..];
      var loaded := RestoreFile(ps, files[i].entries, now);
      if loaded.None? {
        return None;
      }
      ghost var part, rest := ReadAll(files[i].entries, now).value, OnDisk(files[i + 1..], now);
      assert rest.Some? ==> ps + (part + rest.value) == (ps + part) + rest.value;
      ps := loaded.value;
    }
    assert files[|files|..] == [] && ps + [] == ps;
    return Some(ps);
  }
}
