/** Fork, the page-fault handler and exit over the memory they change in place, proved
    against the steps of module CowSpec. Loops go by page number and directory entry. */
module Cow {
  import opened Pages
  import opened CowSpec
  import opened CowShare
  import opened CowFault
  import opened CowStore
  import opened CowExit
  import opened CowRuns

  lemma SomeFrame(used: set<nat>) returns (f: nat)
    ensures f !in used
  {
    f := 0;
    var left := used;
    while f in used
      invariant left == set x | x in used && x >= f
      decreases left
    {
      assert f in left;
      f := f + 1;
      left := set x | x in used && x >= f;
    }
  }

  class Memory {
    var data: map<nat, Page>
    var tables: map<nat, seq<Pte>>
    var dirs: map<nat, seq<Pde>>
    var refs: map<nat, int>
    var procs: map<nat, Proc>
    ghost var home: map<nat, nat>
    ghost var slot: map<nat, nat>

    ghost function Abs(): State
      reads this
    {
      State(data, tables, dirs, refs, procs, home, slot)
    }

    /** `page_alloc` of one page, from an allocator that has one: a frame not in use, its count 1. */
    method PageAlloc() returns (f: nat)
      modifies this`refs
      ensures f !in old(refs) && refs == old(refs)[f := 1]
    {
      ghost var g := SomeFrame(refs.Keys);
      f :| f !in refs;
      refs := refs[f := 1];
    }

    method PageFree(f: nat)
      modifies this
      ensures Abs() == FreeFrame(old(Abs()), f)
    {
      data, tables, dirs, refs := data - {f}, tables - {f}, dirs - {f}, refs - {f};
      home, slot := home - {f}, slot - {f};
    }

    method CreatePageDir() returns (d: nat)
      modifies this
      ensures d !in old(refs) && Abs() == CreateDir(old(Abs()), d)
      ensures d in dirs && |dirs[d]| == 1024 && dirs[d][512] == Large(0) && d in refs && refs[d] == 1
      ensures forall i :: 0 <= i < 1024 && i != 512 ==> dirs[d][i] == Absent
    {
      d := PageAlloc();
      dirs := dirs[d := seq(PTE_PER_PDE, _ => Absent)];
      dirs := dirs[d := dirs[d][Region(KERN_BASE) := Large(0)]];
      assert dirs[d] == NewDir();
    }

    // ---------- fork ----------

    /** Points entry `i` of `d` to the table of `src` and counts it. */
    method ShareTableAt(src: nat, d: nat, i: nat)
      requires EntryReady(Abs(), src, i) && EntrySlot(Abs(), d, i)
      modifies this
      ensures Abs() == ShareTable(old(Abs()), src, d, i)
    {
      dirs := dirs[d := dirs[d][i := dirs[src][i]]];
      var t := dirs[d][i].frame;
      refs := refs[t := refs[t] + 1];
    }

    method ShareTableRange(src: nat, d: nat, lo: nat, hi: nat)
      requires src != d && DirReady(Abs(), d) && TablesMapped(Abs(), src, lo, hi)
      modifies this
      ensures Abs() == ShareTables(old(Abs()), src, d, lo, hi)
    {
      hide ShareTable, EntryReady, EntrySlot, DirReady, TablesMapped;
      ghost var s := Abs();
      var i := lo;
      while i < hi
        invariant lo <= i && (lo <= hi ==> i <= hi) && (hi < lo ==> i == lo)
        invariant Abs() == ShareTables(s, src, d, lo, i)
      {
        EntryStaysReady(s, src, d, lo, i, hi);
        ShareTableAt(src, d, i);
        i := i + 1;
      }
    }

    /** Clears the write bit of page `pg` and counts the new mapping. */
    method SharePageAt(d: nat, pg: nat)
      requires PageReady(Abs(), d, pg)
      modifies this
      ensures Abs() == SharePage(old(Abs()), d, pg)
    {
      var t := dirs[d][pg / PTE_PER_PDE].frame;
      var e := tables[t][pg % PTE_PER_PDE];
      tables := tables[t := tables[t][pg % PTE_PER_PDE := e.(writable := false)]];
      refs := refs[e.frame := refs[e.frame] + 1];
    }

    method SharePageRange(d: nat, lo: nat, hi: nat)
      requires PagesReady(Abs(), d, lo, hi)
      modifies this
      ensures Abs() == SharePages(old(Abs()), d, lo, hi)
    {
      hide SharePage, PageReady, PagesMapped;
      ghost var s := Abs();
      var pg := lo;
      while pg < hi
        invariant lo <= pg && (lo <= hi ==> pg <= hi) && (hi < lo ==> pg == lo)
        invariant Abs() == SharePages(s, d, lo, pg)
      {
        PageStaysReady(s, d, lo, pg, hi);
        SharePageAt(d, pg);
        pg := pg + 1;
      }
    }

    /** `copy_parent` up to the message. */
    method CopyParent(p: Proc) returns (d: nat)
      requires Kinds(Abs()) && SpaceOk(Abs(), p)
      modifies this
      ensures d !in old(refs) && Abs() == Share(old(Abs()), p, d)
    {
      ghost var s := Abs();
      hide Kinds, SpaceOk, PagesReady, TablesMapped, DirReady, CreateDir, ShareTables, SharePages;
      hide StackTables, StackPages, ImageTables, ImagePages;
      d := CreatePageDir();
      StackStage(s, p, d);
      ImageStage(s, p, d);
      ShareTableRange(p.dir, d, StackTables(p).lo, StackTables(p).hi);
      SharePageRange(d, StackPages(p).lo, StackPages(p).hi);
      ShareTableRange(p.dir, d, ImageTables(p).lo, ImageTables(p).hi);
      SharePageRange(d, ImagePages(p).lo, ImagePages(p).hi);
    }

    /** A new frame with the contents of frame `src`, which loses a reference. */
    method CopyFrame(src: nat, ghost pg: nat) returns (f: nat)
      requires src in data && src in refs
      modifies this
      ensures FrameCopied(old(Abs()), Abs(), src, pg, f)
    {
      f := PageAlloc();
      data := data[f := data[src]];
      refs := refs[src := refs[src] - 1];
      home := home[f := pg];
    }

    /** A new table with the entries of the one at entry `i` of `d`, which loses a reference. */
    method CopyTable(d: nat, i: nat) returns (t: nat)
      requires EntryReady(Abs(), d, i) && dirs[d][i].frame in tables
      modifies this
      ensures TableCopied(old(Abs()), Abs(), d, i, t)
    {
      var tab := dirs[d][i].frame;
      refs := refs[tab := refs[tab] - 1];
      t := PageAlloc();
      tables := tables[t := tables[tab]];
      dirs := dirs[d := dirs[d][i := Table(t)]];
      slot := slot[t := i];
    }

    method SetEntry(d: nat, pg: nat, e: Pte)
      requires PageReady(Abs(), d, pg)
      modifies this
      ensures Abs() == SetPte(old(Abs()), d, pg, e)
    {
      var t := dirs[d][pg / PTE_PER_PDE].frame;
      tables := tables[t := tables[t][pg % PTE_PER_PDE := e]];
    }

    /** Gives the child a copy of its own of page `pg`, and of the table that maps it. */
    method CopyMessagePage(parentDir: nat, d: nat, pg: nat, ghost child: nat) returns (f: nat, t: nat)
      requires Ready(Abs(), child, pg) && procs[child].dir == d
      requires PageReady(Abs(), parentDir, pg) && FrameOf(Abs(), parentDir, pg) == FrameOf(Abs(), d, pg)
      modifies this
      ensures f !in old(refs) && t !in old(refs) && f != t && Abs() == Privatize(old(Abs()), d, pg, f, t)
    {
      ghost var s := Abs();
      ReadyFacts(s, child, pg);
      ReadyPage(s, child, pg);
      var src := tables[dirs[parentDir][pg / PTE_PER_PDE].frame][pg % PTE_PER_PDE].frame;
      assert src == FrameOf(s, d, pg);
      hide Ready, Inv, Owns, Maps, Uses, FrameCopied, TableCopied, PageReady, FrameOf, Privatize, SetPte;
      f := CopyFrame(src, pg);
      FrameCopiedStill(s, Abs(), src, d, pg, f);
      ghost var s1 := Abs();
      t := CopyTable(d, pg / PTE_PER_PDE);
      TableCopiedReady(s1, Abs(), d, pg, t);
      ghost var s2 := Abs();
      SetEntry(d, pg, Pte(true, true, f));
      CopiesMake(s, s1, s2, child, pg, f, t);
    }

    /** The pages of a message from `lo` to `hi`. */
    method CopyMessage(parentDir: nat, d: nat, lo: nat, hi: nat, ghost parent: nat,
                       ghost child: nat) returns (ghost spare: seq<(nat, nat)>)
      requires lo <= hi && Twins(Abs(), child, parent, lo, hi - lo) && procs[parent].dir == parentDir
      requires procs[child].dir == d
      modifies this
      ensures Abs() == PrivatizeAll(old(Abs()), d, lo, spare) && Spare(old(refs).Keys, spare) && |spare| == hi - lo
    {
      hide Twins, Privatize, Ready, FrameOf, PageReady, Copying, Inv, Owns, Spare, PrivatizeAll;
      ghost var s := Abs();
      spare := [];
      var pg := lo;
      CopyingStart(s, child, parent, d, lo, hi);
      while pg < hi
        invariant lo <= pg <= hi && Copying(s, Abs(), child, parent, d, lo, pg, hi, spare)
      {
        CopyingReady(s, Abs(), child, parent, d, lo, pg, hi, spare);
        ghost var now := Abs();
        var f, t := CopyMessagePage(parentDir, d, pg, child);
        CopyingStep(s, now, child, parent, d, lo, pg, hi, spare, f, t);
        spare := spare + [(f, t)];
        pg := pg + 1;
      }
      CopyingDone(s, Abs(), child, parent, d, lo, hi, spare);
    }

    /** The parent's space shared into a new directory, and the child entered with it. */
    method EnterChild(parent: nat, child: nat) returns (d: nat)
      requires Inv(Abs()) && parent in procs && child !in procs
      modifies this
      ensures Started(old(Abs()), Abs(), parent, child, d)
    {
      ghost var s := Abs();
      var p := procs[parent];
      InvSpace(s, parent);
      hide Inv, Kinds, SpaceOk, Share;
      d := CopyParent(p);
      procs := procs[child := p.(dir := d)];
    }

    /** `fork_proc`: the child's space is its parent's, but for the message page of its own. */
    method ForkProc(parent: nat, child: nat) returns (ghost d: nat, ghost spare: seq<(nat, nat)>)
      requires Inv(Abs()) && parent in procs && child !in procs
      requires OwnsMessage(procs[parent])
      modifies this
      ensures ForkDone(old(Abs()), Abs(), parent, child, d, spare)
    {
      hide Inv, OwnsMessage, MessagePages, Twins, Spare, PrivatizeAll, ForkDone, Started;
      ghost var s := Abs();
      var p := procs[parent];
      var m := MessagePages(p.msg);
      var dir := EnterChild(parent, child);
      d := dir;
      ghost var h := Abs();
      ForkStart(s, h, parent, child, d);
      spare := CopyMessage(p.dir, dir, m.lo, m.hi, parent, child);
      ForkEnd(s, h, parent, child, d, spare);
    }

    // ---------- the page fault ----------

    /** `do_page_fault` at page `pg` of process `pid`. The count of a mapped page is never
        below one, so the panic is out of reach. */
    method DoPageFault(pid: nat, pg: nat) returns (ghost f: nat, ghost t: nat)
      requires Ready(Abs(), pid, pg)
      modifies this
      ensures f !in old(refs) && t !in old(refs) && f != t
      ensures Abs() == Resolve(old(Abs()), old(procs[pid].dir), pg, f, t)
    {
      ghost var s := Abs();
      var d := procs[pid].dir;
      ReadyPage(s, pid, pg);
      ReadyFacts(s, pid, pg);
      CountsPositive(s, pid, pg);
      hide Ready, Inv, Owns, Maps, Uses, FrameCopied, TableCopied, Privatize, SetPte;
      f := SomeFrame(refs.Keys);
      t := SomeFrame(refs.Keys + {f});
      var tab := dirs[d][pg / PTE_PER_PDE].frame;
      var e := tables[tab][pg % PTE_PER_PDE];
      assert e == PteOf(s, d, pg) && tab == TableOf(s, d, pg);
      hide FrameOf, PteOf, TableOf, Entry;
      var ref := refs[e.frame];
      if ref == 1 {
        SetEntry(d, pg, e.(writable := true));
      } else {
        assert ref > 1;
        var f', t' := CopyFault(pid, d, pg, e.frame, tab);
        f := f';
        t := t';
      }
    }

    /** The fault on a page shared with others. */
    method CopyFault(ghost pid: nat, d: nat, pg: nat, src: nat, tab: nat) returns (f: nat, ghost t: nat)
      requires Ready(Abs(), pid, pg) && procs[pid].dir == d && src == FrameOf(Abs(), d, pg)
      requires tab == TableOf(Abs(), d, pg)
      requires Ref(Abs(), src) > 1
      modifies this
      ensures f !in old(refs) && t !in old(refs) && f != t
      ensures Abs() ==
        if Ref(old(Abs()), tab) == 1 then CopyPage(old(Abs()), d, pg, f) else Privatize(old(Abs()), d, pg, f, t)
    {
      ghost var s := Abs();
      ReadyPage(s, pid, pg);
      ReadyFacts(s, pid, pg);
      CountsPositive(s, pid, pg);
      hide Ready, Inv, Owns, Maps, Uses, FrameCopied, TableCopied, PageReady, FrameOf, TableOf, Entry, CopyPage;
      hide Privatize, SetPte;
      f := CopyFrame(src, pg);
      ghost var s1 := Abs();
      FrameCopiedStill(s, s1, src, d, pg, f);
      t := SomeFrame(s1.refs.Keys + s.refs.Keys + {f});
      FrameCopiedRef(s, s1, src, pg, f, tab);
      if refs[tab] > 1 {
        var t' := CopyTable(d, pg / PTE_PER_PDE);
        t := t';
        TableCopiedReady(s1, Abs(), d, pg, t);
        ghost var s2 := Abs();
        SetEntry(d, pg, Pte(true, true, f));
        CopiesMake(s, s1, s2, pid, pg, f, t);
      } else {
        SetEntry(d, pg, Pte(true, true, f));
        FrameMakes(s, s1, pid, pg, f);
      }
    }

    /** A process writes a byte: the hardware faults on a read-only page, then writes. */
    method StoreByte(pid: nat, va: nat, b: bv8) returns (ghost f: nat, ghost t: nat)
      requires Ready(Abs(), pid, va / PG_SIZE)
      modifies this
      ensures StoreDone(old(Abs()), Abs(), pid, va, b, f, t)
    {
      ghost var s := Abs();
      var d := procs[pid].dir;
      ReadyPage(s, pid, va / PG_SIZE);
      hide Ready, Resolve, Store, StoreDone;
      f := SomeFrame(refs.Keys);
      t := SomeFrame(refs.Keys + {f});
      var e := tables[dirs[d][va / PG_SIZE / PTE_PER_PDE].frame][va / PG_SIZE % PTE_PER_PDE];
      if !e.writable {
        f, t := DoPageFault(pid, va / PG_SIZE);
      }
      ghost var s1 := Abs();
      Faulted(s, s1, pid, va / PG_SIZE, f, t);
      var x := tables[dirs[d][va / PG_SIZE / PTE_PER_PDE].frame][va / PG_SIZE % PTE_PER_PDE].frame;
      data := data[x := data[x][va % PG_SIZE := b]];
      StoreEnd(s, s1, Abs(), pid, va, b, f, t);
    }

    // ---------- exit ----------

    /** Drops a reference of frame `f`, and frees it at zero. */
    method DropFrame(f: nat)
      requires f in refs
      modifies this
      ensures Abs() == DropRef(old(Abs()), f)
    {
      refs := refs[f := refs[f] - 1];
      if refs[f] == 0 { PageFree(f); }
    }

    method DropPageAt(d: nat, pg: nat)
      requires PageReady(Abs(), d, pg)
      modifies this
      ensures Abs() == DropPage(old(Abs()), d, pg)
    {
      DropFrame(tables[dirs[d][pg / PTE_PER_PDE].frame][pg % PTE_PER_PDE].frame);
    }

    method DropPageRange(d: nat, lo: nat, hi: nat)
      requires PagesHeld(Abs(), d, lo, hi) && forall pg: nat :: lo <= pg < hi ==> PageReady(Abs(), d, pg)
      modifies this
      ensures Abs() == DropPages(old(Abs()), d, lo, hi)
    {
      hide DropPage, PageReady, PagesHeld;
      ghost var s := Abs();
      var pg := lo;
      while pg < hi
        invariant lo <= pg && (lo <= hi ==> pg <= hi) && (hi < lo ==> pg == lo)
        invariant Abs() == DropPages(s, d, lo, pg)
      {
        PageStaysHeld(s, d, lo, pg, hi);
        DropPageAt(d, pg);
        pg := pg + 1;
      }
    }

    method DropTableAt(d: nat, i: nat)
      requires EntryReady(Abs(), d, i) && dirs[d][i].frame !in dirs
      modifies this
      ensures Abs() == DropTable(old(Abs()), d, i)
    {
      DropFrame(dirs[d][i].frame);
      dirs := dirs[d := dirs[d][i := Absent]];
    }

    method DropTableRange(d: nat, lo: nat, hi: nat)
      requires TablesHeld(Abs(), d, lo, hi)
      modifies this
      ensures Abs() == DropTables(old(Abs()), d, lo, hi)
    {
      hide DropTable, EntryReady, TablesHeld;
      ghost var s := Abs();
      var i := lo;
      while i < hi
        invariant lo <= i && (lo <= hi ==> i <= hi) && (hi < lo ==> i == lo)
        invariant Abs() == DropTables(s, d, lo, i)
      {
        EntryStaysHeld(s, d, lo, i, hi);
        DropTableAt(d, i);
        i := i + 1;
      }
    }

    /** One part of an address space: its pages, then its tables. */
    method DropPartOf(d: nat, ps: Span, ts: Span)
      requires PartHeld(Abs(), d, ps, ts) && TablesFull(Abs())
      modifies this
      ensures Abs() == DropPart(old(Abs()), d, ps, ts)
    {
      hide PagesHeld, TablesHeld, DropPages, DropTables, PageReady, PartHeld, TablesFull;
      PartReadyPages(Abs(), d, ps, ts);
      DropPageRange(d, ps.lo, ps.hi);
      DropTableRange(d, ts.lo, ts.hi);
    }

    /** `free_proc`. */
    method FreeProc(pid: nat)
      requires Inv(Abs()) && pid in procs
      modifies this
      ensures ExitDone(old(Abs()), Abs(), pid)
    {
      ghost var s := Abs();
      var p := procs[pid];
      InvSpace(s, pid);
      SpaceHeld(s, p);
      FullFrom(s);
      hide Inv, Kinds, SpaceOk, PartHeld, TablesFull, DropPart, Exit, Beside, ExitDone, StackPages, StackTables;
      hide ImagePages, DroppedTables;
      DropPartOf(p.dir, StackPages(p), StackTables(p));
      ExitHalf(s, Abs(), p);
      DropPartOf(p.dir, ImagePages(p), DroppedTables(p));
      ghost var m := Abs();
      PageFree(p.dir);
      procs := procs - {pid};
      ExitEnd(s, m, Abs(), pid);
    }
  }

  // ---------- what the loops find ----------

  /** Entry `i` of directory `d` points to a table in use. */
  ghost predicate EntryReady(s: State, d: nat, i: nat) {
    d in s.dirs && i < |s.dirs[d]| && s.dirs[d][i].Table? && s.dirs[d][i].frame in s.refs
  }

  ghost predicate EntrySlot(s: State, d: nat, i: nat) {
    d in s.dirs && i < |s.dirs[d]|
  }

  /** Directory `d` has a table with an entry for `pg`, and the frame there is in use. */
  ghost predicate PageReady(s: State, d: nat, pg: nat) {
    && d in s.dirs && Pdx(pg) < |s.dirs[d]| && s.dirs[d][Pdx(pg)].Table?
    && var t := s.dirs[d][Pdx(pg)].frame;
       t in s.tables && Ptx(pg) < |s.tables[t]| && s.tables[t][Ptx(pg)].frame in s.refs
  }

  lemma EntryStaysReady(s: State, src: nat, d: nat, lo: nat, i: nat, hi: nat)
    requires src != d && DirReady(s, d) && TablesMapped(s, src, lo, hi) && lo <= i < hi
    ensures var m := ShareTables(s, src, d, lo, i); EntryReady(m, src, i) && EntrySlot(m, d, i)
  {
    assert Entry(s, src, i).Table?;
    ShareTablesFacts(s, src, d, lo, i);
  }

  lemma PageStaysReady(s: State, d: nat, lo: nat, pg: nat, hi: nat)
    requires PagesMapped(s, d, lo, hi) && PageReady(s, d, pg) && lo <= pg < hi
    ensures PageReady(SharePages(s, d, lo, pg), d, pg)
  {
    SharePagesFacts(s, d, lo, pg);
    hide SharePages;
  }

  /** `c` is `s` with directory `d` and some entries made read-only. */
  ghost predicate Base(s: State, c: State, p: Proc, d: nat) {
    && Softened(s.tables, c.tables) && c.refs.Keys == s.refs.Keys + {d}
    && forall i :: Entry(c, p.dir, i) == Entry(s, p.dir, i)
  }

  ghost predicate PagesReady(s: State, d: nat, lo: nat, hi: nat) {
    PagesMapped(s, d, lo, hi) && forall pg: nat :: lo <= pg < hi ==> PageReady(s, d, pg)
  }

  /** Once its tables are shared, the pages of a part are ready to be. */
  lemma Stage(s: State, c: State, p: Proc, d: nat, ts: Span, ps: Span)
    requires Kinds(s) && SpaceOk(s, p) && Base(s, c, p, d) && PartReady(c, p.dir, d, ts, ps)
    requires forall i :: ts.Has(i) ==> Fills(p, i)
    ensures p.dir != d && DirReady(c, d) && TablesMapped(c, p.dir, ts.lo, ts.hi)
    ensures PagesReady(ShareTables(c, p.dir, d, ts.lo, ts.hi), d, ps.lo, ps.hi)
  {
    var s' := ShareTables(c, p.dir, d, ts.lo, ts.hi);
    ShareTablesFacts(c, p.dir, d, ts.lo, ts.hi);
    SeenThrough(c, s', p.dir, d, ts, ps);
    hide ShareTables, PagesOk, Layout, Fills;
    forall pg: nat | ps.lo <= pg < ps.hi ensures PageReady(s', d, pg) {
      assert ps.Has(pg) && ts.Has(Pdx(pg));
      StageTable(s, c, s', p, d, ts, Pdx(pg));
      assert FrameOf(s', d, pg) in s'.refs;
    }
  }

  lemma StageTable(s: State, c: State, s': State, p: Proc, d: nat, ts: Span, i: nat)
    requires Kinds(s) && SpaceOk(s, p) && Base(s, c, p, d) && TablesShared(c, s', p.dir, d, ts.lo, ts.hi)
    requires Fills(p, i) && ts.Has(i)
    ensures d in s'.dirs && i < |s'.dirs[d]| && s'.dirs[d][i].Table? && s'.dirs[d][i].frame in s'.tables
    ensures |s'.tables[s'.dirs[d][i].frame]| == PTE_PER_PDE
  {
    FillsApart(p, i);
    hide PagesOk, Layout, Fills;
    assert Entry(c, p.dir, i) == Entry(s, p.dir, i);
  }

  lemma BaseStill(s: State, c: State, c': State, p: Proc, d: nat, ts: Span, ps: Span)
    requires Base(s, c, p, d) && PartReady(c, p.dir, d, ts, ps) && PartShared(c, c', p.dir, d, ts, ps) && d in c.refs
    ensures Base(s, c', p, d)
  {
    hide PteOf, Home, Slot, EntriesOk, PagesOk, Layout, Softened, PagesMapped, TablesMapped;
    assert forall i :: Entry(c', p.dir, i) == Entry(c, p.dir, i);
    hide PartReady, Entry;
    SoftTwice(s.tables, c.tables, c'.tables);
  }

  lemma SoftTwice(t: map<nat, seq<Pte>>, u: map<nat, seq<Pte>>, w: map<nat, seq<Pte>>)
    requires Softened(t, u) && Softened(u, w)
    ensures Softened(t, w)
  {
  }

  lemma StackStage(s: State, p: Proc, d: nat)
    requires Kinds(s) && SpaceOk(s, p) && d !in s.refs
    ensures var c := CreateDir(s, d);
      && p.dir != d && DirReady(c, d) && TablesMapped(c, p.dir, StackTables(p).lo, StackTables(p).hi)
      && var m := ShareTables(c, p.dir, d, StackTables(p).lo, StackTables(p).hi);
         PagesReady(m, d, StackPages(p).lo, StackPages(p).hi)
  {
    SpaceParts(s, p, d);
    assert Base(s, CreateDir(s, d), p, d);
    hide CreateDir, PartReady, StackTables, StackPages, ImageTables, ImagePages, ShareTables;
    Stage(s, CreateDir(s, d), p, d, StackTables(p), StackPages(p));
  }

  lemma ImageStage(s: State, p: Proc, d: nat)
    requires Kinds(s) && SpaceOk(s, p) && d !in s.refs
    ensures var m := SharePart(CreateDir(s, d), p.dir, d, StackTables(p), StackPages(p));
      && p.dir != d && DirReady(m, d) && TablesMapped(m, p.dir, ImageTables(p).lo, ImageTables(p).hi)
      && var n := ShareTables(m, p.dir, d, ImageTables(p).lo, ImageTables(p).hi);
         PagesReady(n, d, ImagePages(p).lo, ImagePages(p).hi)
  {
    var c := CreateDir(s, d);
    var m := SharePart(c, p.dir, d, StackTables(p), StackPages(p));
    SpaceParts(s, p, d);
    assert Base(s, c, p, d) && d in c.refs;
    hide CreateDir, PartReady, StackTables, StackPages, ImageTables, ImagePages, ShareTables, SharePart, SpaceOk, Base;
    hide PartShared;
    SharePartFacts(c, p.dir, d, StackTables(p), StackPages(p));
    PartStill(c, m, p.dir, d, StackTables(p), StackPages(p), ImageTables(p), ImagePages(p));
    BaseStill(s, c, m, p, d, StackTables(p), StackPages(p));
    Stage(s, m, p, d, ImageTables(p), ImagePages(p));
  }

  // ---------- what the copies make ----------

  ghost predicate FrameCopied(s: State, s': State, src: nat, pg: nat, f: nat) {
    && src in s.data && src in s.refs && f !in s.refs
    && s' == s.(data := s.data[f := s.data[src]], home := s.home[f := pg],
                refs := s.refs[f := 1][src := s.refs[src] - 1])
  }

  ghost predicate TableCopied(s: State, s': State, d: nat, i: nat, t: nat) {
    && EntryReady(s, d, i) && s.dirs[d][i].frame in s.tables && t !in s.refs
    && var tab := s.dirs[d][i].frame;
       s' == s.(tables := s.tables[t := s.tables[tab]], slot := s.slot[t := i],
                dirs := s.dirs[d := s.dirs[d][i := Table(t)]], refs := s.refs[tab := s.refs[tab] - 1][t := 1])
  }

  lemma FrameCopiedStill(s: State, s': State, src: nat, d: nat, pg: nat, f: nat)
    requires FrameCopied(s, s', src, pg, f) && PageReady(s, d, pg) && TableOf(s, d, pg) in s.refs
    ensures EntryReady(s', d, Pdx(pg)) && s'.dirs[d][Pdx(pg)].frame in s'.tables
    ensures PageReady(s', d, pg)
  {
    hide Pdx, Ptx;
  }

  lemma TableCopiedReady(s: State, s': State, d: nat, pg: nat, t: nat)
    requires TableCopied(s, s', d, Pdx(pg), t) && PageReady(s, d, pg)
    ensures PageReady(s', d, pg)
  {
    hide Pdx, Ptx;
  }

  /** The counts after both copies, in the order of the writes and of the specification. */
  lemma CopyRefs(r: map<nat, int>, x: nat, tab: nat, f: nat, t: nat)
    requires x in r && tab in r && f !in r && t !in r[f := 1] && x != tab
    ensures var r1 := r[f := 1][x := r[x] - 1]; tab in r1 && r1[tab] == r[tab]
    ensures r[f := 1][x := r[x] - 1][tab := r[tab] - 1][t := 1] == r[x := r[x] - 1][tab := r[tab] - 1][f := 1][t := 1]
  {
  }

  lemma CopiesShape(s: State, s1: State, s2: State, d: nat, x: nat, tab: nat, pg: nat, f: nat, t: nat)
    requires FrameCopied(s, s1, x, pg, f) && TableCopied(s1, s2, d, Pdx(pg), t)
    requires d in s.dirs && |s.dirs[d]| == PTE_PER_PDE && Pdx(pg) < PTE_PER_PDE && s.dirs[d][Pdx(pg)] == Table(tab)
    requires tab in s.tables && tab in s.refs && |s.tables[tab]| == PTE_PER_PDE && x != tab
    ensures Privatized(s, SetPte(s2, d, pg, Pte(true, true, f)), d, x, tab, pg, f, t)
  {
    CopyRefs(s.refs, x, tab, f, t);
    assert Ptx(pg) < PTE_PER_PDE;
    hide Pdx, Ptx;
    assert TableOf(s2, d, pg) == t && s2.tables[t] == s.tables[tab];
  }

  lemma PrivatizedOnce(s: State, a: State, b: State, d: nat, x: nat, tab: nat, pg: nat, f: nat, t: nat)
    requires Privatized(s, a, d, x, tab, pg, f, t) && Privatized(s, b, d, x, tab, pg, f, t)
    ensures a == b && f !in s.refs && t !in s.refs && f != t
  {
  }

  /** A copied frame, a copied table and the new entry make a private page. */
  lemma CopiesMake(s: State, s1: State, s2: State, pid: nat, pg: nat, f: nat, t: nat)
    requires Ready(s, pid, pg)
    requires var d := s.procs[pid].dir;
      FrameCopied(s, s1, FrameOf(s, d, pg), pg, f) && TableCopied(s1, s2, d, Pdx(pg), t)
    ensures var d := s.procs[pid].dir;
      f !in s.refs && t !in s.refs && f != t && SetPte(s2, d, pg, Pte(true, true, f)) == Privatize(s, d, pg, f, t)
  {
    var d := s.procs[pid].dir;
    var x, tab := FrameOf(s, d, pg), TableOf(s, d, pg);
    ReadyFacts(s, pid, pg);
    hide Ready, Inv, Owns, Maps, Uses, FrameOf, TableOf, Pdx, Ptx, FrameCopied, TableCopied, SetPte, Privatize;
    hide Privatized;
    CopiesShape(s, s1, s2, d, x, tab, pg, f, t);
    var s' := SetPte(s2, d, pg, Pte(true, true, f));
    assert f !in s.refs && t !in s.refs && f != t by { PrivatizedOnce(s, s', s', d, x, tab, pg, f, t); }
    PrivatizeIs(s, pid, pg, f, t);
    PrivatizedOnce(s, s', Privatize(s, d, pg, f, t), d, x, tab, pg, f, t);
  }

  function Members(spare: seq<(nat, nat)>): set<nat> {
    if spare == [] then {} else {spare[0].0, spare[0].1} + Members(spare[1..])
  }

  lemma InvSpace(s: State, pid: nat)
    requires Inv(s) && pid in s.procs
    ensures Kinds(s) && SpaceOk(s, s.procs[pid])
  {
  }

  /** After `copy_parent`'s sharing, with the child in the process table. */
  ghost predicate Started(s: State, h: State, parent: nat, child: nat, d: nat) {
    && Inv(s) && parent in s.procs && child !in s.procs && d !in s.refs
    && var c := Share(s, s.procs[parent], d); h == c.(procs := c.procs[child := s.procs[parent].(dir := d)])
  }

  ghost predicate OwnsMessage(p: Proc) {
    forall pg: nat :: MessagePages(p.msg).Has(pg) ==> Owns(p, pg)
  }

  /** A fork as module CowSpec has it: the child gets its parent's view. */
  ghost predicate ForkDone(s: State, s': State, parent: nat, child: nat, d: nat, spare: seq<(nat, nat)>) {
    && ForkEnabled(s, parent, child, d, spare) && s' == Fork(s, parent, child, d, spare)
    && Inv(s') && parent in Views(s) && Views(s') == Views(s)[child := Views(s)[parent]]
  }

  lemma ForkStart(s: State, h: State, parent: nat, child: nat, d: nat)
    requires Started(s, h, parent, child, d) && OwnsMessage(s.procs[parent])
    ensures var m := MessagePages(s.procs[parent].msg);
      && m.lo <= m.hi && Twins(h, child, parent, m.lo, m.hi - m.lo)
      && h.procs == s.procs[child := s.procs[parent].(dir := d)] && h.refs.Keys == s.refs.Keys + {d}
  {
    hide Inv, Halfway, Started, Owns, Twins, Views;
    StartedIs(s, h, parent, child, d);
    var m := MessagePages(s.procs[parent].msg);
    assert m.lo <= m.hi && forall x: nat :: m.lo <= x < m.lo + (m.hi - m.lo) ==> m.Has(x);
    hide MessagePages;
    HalfwayRefines(s, parent, child, d, m.lo, m.hi - m.lo);
  }

  lemma StartedIs(s: State, h: State, parent: nat, child: nat, d: nat)
    requires Started(s, h, parent, child, d)
    ensures h == Halfway(s, parent, child, d) && Inv(s) && parent in s.procs && child !in s.procs && d !in s.refs
  {
    hide Share, Inv;
  }

  lemma ForkEnd(s: State, h: State, parent: nat, child: nat, d: nat, spare: seq<(nat, nat)>)
    requires Started(s, h, parent, child, d) && OwnsMessage(s.procs[parent]) && Spare(s.refs.Keys + {d}, spare)
    requires |spare| == MessagePages(s.procs[parent].msg).hi - MessagePages(s.procs[parent].msg).lo
    ensures ForkDone(s, PrivatizeAll(h, d, MessagePages(s.procs[parent].msg).lo, spare), parent, child, d, spare)
  {
    hide Inv, Owns, MessagePages, Spare, PrivatizeAll, Views, Share;
    ForkRefines(s, parent, child, d, spare);
  }

  lemma SpareNone(s: State, d: nat, pg: nat)
    ensures PrivatizeAll(s, d, pg, []) == s && Members([]) == {} && forall used :: Spare(used, [])
  {
  }

  lemma {:induction false} SpareMore(s: State, used: set<nat>, d: nat, pg: nat, spare: seq<(nat, nat)>, f: nat, t: nat)
    requires Spare(used, spare) && f !in used + Members(spare) && t !in used + Members(spare) && f != t
    ensures var more := spare + [(f, t)];
      && Spare(used, more) && Members(more) == Members(spare) + {f, t}
      && PrivatizeAll(s, d, pg, more) == Privatize(PrivatizeAll(s, d, pg, spare), d, pg + |spare|, f, t)
    decreases |spare|
  {
    hide Privatize;
    var more := spare + [(f, t)];
    if spare == [] {
      assert more[1..] == [];
      var s1 := Privatize(s, d, pg, f, t);
      assert PrivatizeAll(s1, d, pg + 1, []) == s1;
    } else {
      assert more[1..] == spare[1..] + [(f, t)];
      var s1 := Privatize(s, d, pg, spare[0].0, spare[0].1);
      SpareMore(s1, used + {spare[0].0, spare[0].1}, d, pg + 1, spare[1..], f, t);
    }
  }

  /** The pages of a message from `lo` to `pg` are copied, those up to `hi` still shared with the parent. */
  ghost predicate Copying(s: State, now: State, child: nat, parent: nat, d: nat, lo: nat, pg: nat, hi: nat,
                          spare: seq<(nat, nat)>) {
    && lo <= pg <= hi && |spare| == pg - lo && now == PrivatizeAll(s, d, lo, spare)
    && Twins(now, child, parent, pg, hi - pg) && now.procs == s.procs && s.procs[child].dir == d
    && Spare(s.refs.Keys, spare) && now.refs.Keys == s.refs.Keys + Members(spare)
  }

  lemma CopyingStart(s: State, child: nat, parent: nat, d: nat, lo: nat, hi: nat)
    requires lo <= hi && Twins(s, child, parent, lo, hi - lo) && s.procs[child].dir == d
    ensures Copying(s, s, child, parent, d, lo, lo, hi, [])
  {
    hide Twins;
    SpareNone(s, d, lo);
  }

  lemma CopyingHas(s: State, now: State, child: nat, parent: nat, d: nat, lo: nat, pg: nat, hi: nat, spare: seq<(nat,
                   nat)>)
    requires Copying(s, now, child, parent, d, lo, pg, hi, spare)
    ensures lo <= pg <= hi && Twins(now, child, parent, pg, hi - pg) && now.procs == s.procs
    ensures child in now.procs && parent in now.procs && now.procs[child].dir == d
  {
    TwinHas(now, child, parent, pg, hi - pg);
    hide Twins, Inv;
  }

  lemma CopyingReady(s: State, now: State, child: nat, parent: nat, d: nat, lo: nat, pg: nat, hi: nat,
                     spare: seq<(nat, nat)>)
    requires Copying(s, now, child, parent, d, lo, pg, hi, spare) && pg < hi
    ensures Ready(now, child, pg) && now.procs == s.procs && child in now.procs && parent in now.procs
    ensures now.procs[child].dir == d
    ensures PageReady(now, now.procs[parent].dir, pg) && FrameOf(now, now.procs[parent].dir, pg) == FrameOf(now, d, pg)
  {
    CopyingHas(s, now, child, parent, d, lo, pg, hi, spare);
    hide Copying;
    TwinsReady(now, child, parent, pg, hi - pg);
  }

  lemma TwinsReady(s: State, child: nat, other: nat, pg: nat, n: nat)
    requires Twins(s, child, other, pg, n) && n > 0 && child in s.procs && other in s.procs
    ensures Ready(s, child, pg) && PageReady(s, s.procs[other].dir, pg)
    ensures FrameOf(s, s.procs[other].dir, pg) == FrameOf(s, s.procs[child].dir, pg)
  {
    hide Twins, Ready, PageReady, FrameOf;
    TwinCount(s, child, other, pg, n);
    TwinReady(s, child, other, pg, n);
  }

  lemma CopyingStep(s: State, now: State, child: nat, parent: nat, d: nat, lo: nat, pg: nat, hi: nat, spare: seq<(nat,
                    nat)>, f: nat, t: nat)
    requires Copying(s, now, child, parent, d, lo, pg, hi, spare) && pg < hi && f !in now.refs && t !in now.refs
    requires f != t
    ensures Copying(s, Privatize(now, d, pg, f, t), child, parent, d, lo, pg + 1, hi, spare + [(f, t)])
  {
    hide Twins, Privatize, PrivatizeAll, Spare, Members, Views;
    assert child in now.procs by { TwinHas(now, child, parent, pg, hi - pg); }
    TwinStep(now, child, parent, pg, hi - pg, f, t);
    SpareMore(s, s.refs.Keys, d, lo, spare, f, t);
    assert s.refs.Keys + Members(spare) + {f, t} == s.refs.Keys + (Members(spare) + {f, t});
  }

  lemma CopyingDone(s: State, now: State, child: nat, parent: nat, d: nat, lo: nat, hi: nat, spare: seq<(nat, nat)>)
    requires Copying(s, now, child, parent, d, lo, hi, hi, spare)
    ensures now == PrivatizeAll(s, d, lo, spare) && Spare(s.refs.Keys, spare) && |spare| == hi - lo
  {
  }

  lemma TwinReady(s: State, child: nat, other: nat, pg: nat, n: nat)
    requires Twins(s, child, other, pg, n) && n > 0
    ensures PageReady(s, s.procs[other].dir, pg)
    ensures FrameOf(s, s.procs[other].dir, pg) == FrameOf(s, s.procs[child].dir, pg)
  {
    hide Inv, Owns, FrameOf;
    assert Ready(s, other, pg);
    ReadyPage(s, other, pg);
  }

  lemma ReadyPage(s: State, pid: nat, pg: nat)
    requires Ready(s, pid, pg)
    ensures PageReady(s, s.procs[pid].dir, pg)
  {
    ReadyFacts(s, pid, pg);
    hide Inv, Owns, Pdx, Maps, Uses;
    assert Ptx(pg) < PTE_PER_PDE;
  }

  lemma FrameCopiedRef(s: State, s': State, src: nat, pg: nat, f: nat, tab: nat)
    requires FrameCopied(s, s', src, pg, f) && tab in s.refs && tab != src
    ensures f !in s.refs && tab in s'.refs && s'.refs[tab] == Ref(s, tab) && s.refs.Keys + {f} == s'.refs.Keys
  {
  }

  lemma FrameShape(s: State, s1: State, d: nat, x: nat, tab: nat, pg: nat, f: nat)
    requires FrameCopied(s, s1, x, pg, f) && Entry(s, d, Pdx(pg)) == Table(tab) && tab in s.tables
    requires |s.tables[tab]| == PTE_PER_PDE
    ensures PageCopied(s, SetPte(s1, d, pg, Pte(true, true, f)), x, tab, pg, f)
  {
    assert s.refs[f := 1][x := s.refs[x] - 1] == s.refs[x := s.refs[x] - 1][f := 1];
    assert Ptx(pg) < PTE_PER_PDE;
    hide Pdx, Ptx;
  }

  lemma PageCopiedOnce(s: State, a: State, b: State, x: nat, tab: nat, pg: nat, f: nat)
    requires PageCopied(s, a, x, tab, pg, f) && PageCopied(s, b, x, tab, pg, f)
    ensures a == b
  {
  }

  /** A copied frame and the new entry, in an unshared table. */
  lemma FrameMakes(s: State, s1: State, pid: nat, pg: nat, f: nat)
    requires Ready(s, pid, pg) && f !in s.refs
    requires var d := s.procs[pid].dir; FrameCopied(s, s1, FrameOf(s, d, pg), pg, f)
    ensures var d := s.procs[pid].dir; SetPte(s1, d, pg, Pte(true, true, f)) == CopyPage(s, d, pg, f)
  {
    var d := s.procs[pid].dir;
    ReadyFacts(s, pid, pg);
    hide Ready, Inv, Owns, Maps, Uses, FrameOf, TableOf, SetPte, Entry, FrameCopied, CopyPage, PageCopied;
    FrameShape(s, s1, d, FrameOf(s, d, pg), TableOf(s, d, pg), pg, f);
    CopyPageIs(s, pid, pg, f);
    PageCopiedOnce(s, SetPte(s1, d, pg, Pte(true, true, f)), CopyPage(s, d, pg, f), FrameOf(s, d, pg),
                   TableOf(s, d, pg), pg, f);
  }

  /** A store as module CowSpec has it: the process sees it and nobody else does. */
  ghost predicate StoreDone(s: State, s': State, pid: nat, va: nat, b: bv8, f: nat, t: nat) {
    && StoreEnabled(s, pid, va, f, t) && s' == Store(s, pid, va, b, f, t)
    && Inv(s') && pid in Views(s) && Views(s') == Views(s)[pid := Stored(Views(s)[pid], va, b)]
  }

  /** The state in which the byte is written. */
  lemma Faulted(s: State, s1: State, pid: nat, pg: nat, f: nat, t: nat)
    requires Ready(s, pid, pg) && f !in s.refs && t !in s.refs && f != t
    requires var d := s.procs[pid].dir; s1 == if PteOf(s, d, pg).writable then s else Resolve(s, d, pg, f, t)
    ensures s1.procs == s.procs && PageReady(s1, s.procs[pid].dir, pg)
    ensures var x := FrameOf(s1, s.procs[pid].dir, pg); x in s1.data && |s1.data[x]| == PG_SIZE
  {
    hide Resolve, Owns, Inv, PteOf, PageReady;
    ResolveInv(s, pid, pg, f, t);
    ReadyPage(s1, pid, pg);
    ReadyFacts(s1, pid, pg);
    ReadyKinds(s1, pid, pg);
  }

  lemma StoreEnd(s: State, s1: State, s': State, pid: nat, va: nat, b: bv8, f: nat, t: nat)
    requires StoreEnabled(s, pid, va, f, t)
    requires var d := s.procs[pid].dir;
      s1 == if PteOf(s, d, PageDown(va)).writable then s else Resolve(s, d, PageDown(va), f, t)
    requires var x := FrameOf(s1, s.procs[pid].dir, PageDown(va));
      x in s1.data && |s1.data[x]| == PG_SIZE && s' == s1.(data := s1.data[x := s1.data[x][va % PG_SIZE := b]])
    ensures StoreDone(s, s', pid, va, b, f, t)
  {
    assert pid in s.procs;
    hide Resolve, PteOf, Ready, Inv, Views, Stored;
    assert s' == Store(s, pid, va, b, f, t);
    StoreRefines(s, pid, va, b, f, t);
  }

  // ---------- exit ----------

  lemma PageStaysHeld(s: State, d: nat, lo: nat, pg: nat, hi: nat)
    requires PagesHeld(s, d, lo, hi) && PageReady(s, d, pg) && lo <= pg < hi
    ensures PageReady(DropPages(s, d, lo, pg), d, pg)
  {
    var m := DropPages(s, d, lo, pg);
    DropPagesFacts(s, d, lo, pg);
    HitsMore(s, d, lo, pg + 1);
    var t := s.dirs[d][Pdx(pg)].frame;
    hide DropPages, Pdx, Ptx, PageHits;
    Unhit(s, m, PageHits(s, d, lo, pg), t);
    Unhit(s, m, PageHits(s, d, lo, pg), FrameOf(s, d, pg));
    hide Dropped;
  }

  lemma EntryStaysHeld(s: State, d: nat, lo: nat, i: nat, hi: nat)
    requires TablesHeld(s, d, lo, hi) && lo <= i < hi
    ensures var m := DropTables(s, d, lo, i); EntryReady(m, d, i) && m.dirs[d][i].frame !in m.dirs
  {
    var m := DropTables(s, d, lo, i);
    assert Entry(s, d, i).Table?;
    DropTablesFacts(s, d, lo, i);
    TableHitsMore(s, d, lo, i + 1);
    hide DropTables, TableHits;
    Unhit(s, m, TableHits(s, d, lo, i), Entry(s, d, i).frame);
    hide Dropped;
    assert Entry(m, d, i) == Entry(s, d, i);
  }

  ghost predicate TablesFull(s: State) {
    forall t :: t in s.tables ==> |s.tables[t]| == PTE_PER_PDE
  }

  lemma FullFrom(s: State)
    requires Kinds(s)
    ensures TablesFull(s)
  {
  }

  lemma PartReadyPages(s: State, d: nat, ps: Span, ts: Span)
    requires PartHeld(s, d, ps, ts) && TablesFull(s)
    ensures PagesHeld(s, d, ps.lo, ps.hi) && forall pg: nat :: ps.lo <= pg < ps.hi ==> PageReady(s, d, pg)
    ensures TablesHeld(DropPages(s, d, ps.lo, ps.hi), d, ts.lo, ts.hi)
  {
    DropPagesFacts(s, d, ps.lo, ps.hi);
    PageHitsAre(s, d, ps.lo, ps.hi);
    TablesAfterPages(s, DropPages(s, d, ps.lo, ps.hi), d, PageHits(s, d, ps.lo, ps.hi), ts.lo, ts.hi);
    hide DropPages, PageHits, Dropped, TablesHeld;
    forall pg: nat | ps.lo <= pg < ps.hi ensures PageReady(s, d, pg) {
      assert ps.Has(pg) && Ptx(pg) < PTE_PER_PDE;
      assert FrameOf(s, d, pg) in s.refs;
    }
  }

  lemma ExitHalf(s: State, s': State, p: Proc)
    requires Kinds(s) && SpaceOk(s, p) && s' == DropPart(s, p.dir, StackPages(p), StackTables(p))
    ensures PartHeld(s', p.dir, ImagePages(p), DroppedTables(p)) && TablesFull(s')
  {
    FullFrom(s);
    hide DropPart, PartHits, Beside, PartHeld, SpaceOk, Kinds, Cleared, StackPages, StackTables, ImagePages;
    hide DroppedTables;
    SpaceHeld(s, p);
    DropPartFacts(s, p.dir, StackPages(p), StackTables(p));
    HeldAfterPart(s, s', p.dir, StackPages(p), StackTables(p), ImagePages(p), DroppedTables(p));
  }

  /** An exit as module CowSpec has it: the process is gone, nobody else's view has changed,
      and exactly the pages that nobody else maps are free. */
  ghost predicate ExitDone(s: State, s': State, pid: nat) {
    && pid in s.procs && s' == Exit(s, pid) && Inv(s') && Views(s') == Views(s) - {pid}
    && forall f :: f in s.data ==> (f !in s'.data <==> Mappers(s, f) <= {pid})
  }

  lemma ExitEnd(s: State, m: State, s': State, pid: nat)
    requires Inv(s) && pid in s.procs && s' == FreeFrame(m, s.procs[pid].dir).(procs := m.procs - {pid})
    requires var p := s.procs[pid];
      m == DropPart(DropPart(s, p.dir, StackPages(p), StackTables(p)), p.dir, ImagePages(p), DroppedTables(p))
    ensures ExitDone(s, s', pid)
  {
    var p := s.procs[pid];
    var s1 := DropPart(s, p.dir, StackPages(p), StackTables(p));
    InvSpace(s, pid);
    SpaceHeld(s, p);
    DropPartFacts(s, p.dir, StackPages(p), StackTables(p));
    ExitHalf(s, s1, p);
    DropPartFacts(s1, p.dir, ImagePages(p), DroppedTables(p));
    assert m.procs == s.procs;
    assert s' == Exit(s, pid);
    hide Inv, Exit, Mappers, Views;
    ExitRefines(s, pid);
  }
}
