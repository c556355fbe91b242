/** The same on byte addresses: which bytes are a process's, where the hardware finds them, and
    what forks, stores and whole runs do to each of them. Addresses, entries and sizes are
    written as numbers, as in section 4.3 of the Intel Software Developer's Manual, volume 3A. */
module CowBytes {
  import opened Common
  import opened Pages
  import opened CowSpec
  import opened CowShare
  import opened CowFault
  import opened CowStore
  import opened CowExit
  import opened CowLoad
  import opened CowRuns

  /** Byte `va` lies in the stack or the image of `p`. */
  predicate HasByte(p: Proc, va: nat) {
    || p.stack <= va < p.stack + p.stackSize
    || (p.image.Image? && p.image.start <= va < p.image.end)
  }

  // ---------- pages and tables ----------

  /** The page of every byte of the process is its own, and its table is in its directory. */
  lemma BytesOwned(p: Proc, va: nat)
    requires HasByte(p, va)
    ensures Owns(p, va / 4096)
    ensures Layout(p) ==> Fills(p, va / 0x40_0000) && va < 0x8000_0000
  {
    if p.stack <= va < p.stack + p.stackSize { StackByte(p.stack, p.stackSize, va); }
  }

  lemma StackByte(stack: nat, size: nat, va: nat)
    requires stack <= va < stack + size
    ensures (stack + size) % 0x40_0000 == 0 ==> va / 0x40_0000 < (stack + size) / 0x40_0000
  {
  }

  /** Every page of the process holds a byte of it, if its image is not empty. */
  lemma PagesUsed(p: Proc, pg: nat) returns (va: nat)
    requires Owns(p, pg) && (p.image.Image? ==> p.image.start < p.image.end)
    requires Layout(p)
    ensures va / 4096 == pg && HasByte(p, va)
  {
    if StackPages(p).Has(pg) {
      va := FirstByte(p.stack, p.stack + p.stackSize, pg);
    } else {
      va := FirstByte(p.image.start, p.image.end, pg);
    }
  }

  lemma FirstByte(lo: nat, hi: nat, pg: nat) returns (va: nat)
    requires PageDown(lo) <= pg < PageUp(hi) && (lo < hi || hi % 4096 == 0)
    ensures va / 4096 == pg && lo <= va < hi
  {
    va := if lo < pg * 4096 then pg * 4096 else lo;
  }

  /** Every entry fork shares is that of a byte of the process, or of `program_break`. */
  lemma TablesUsed(p: Proc, i: nat) returns (va: nat)
    requires Fills(p, i) && Layout(p)
    ensures va / 0x40_0000 == i && (HasByte(p, va) || (p.image.Image? && va == p.image.end))
  {
    if StackTables(p).Has(i) {
      va := if p.stack < i * 0x40_0000 then i * 0x40_0000 else p.stack;
    } else if i == p.image.end / 0x40_0000 {
      va := p.image.end;
    } else {
      va := if p.image.start < i * 0x40_0000 then i * 0x40_0000 else p.image.start;
    }
  }

  // ---------- what the hardware reads ----------

  /** The two tables lead from address `va` to frame `f`: ten bits of the address each. */
  ghost predicate Leads(s: State, d: nat, va: nat, f: nat, writable: bool) {
    && d in s.dirs && |s.dirs[d]| == 1024 && va / 0x40_0000 < 1024 && s.dirs[d][va / 0x40_0000].Table?
    && var t := s.dirs[d][va / 0x40_0000].frame;
       t in s.tables && |s.tables[t]| == 1024 && s.tables[t][va / 0x1000 % 1024] == Pte(true, writable, f)
  }

  /** What a process with the pages `v` reads at `va`. */
  function Byte(v: map<nat, Page>, va: nat): Option<bv8> {
    if va / 4096 in v && va % 4096 < |v[va / 4096]| then Some(v[va / 4096][va % 4096]) else None
  }

  lemma OwnedReady(s: State, q: nat, va: nat)
    requires Inv(s) && q in s.procs && HasByte(s.procs[q], va)
    ensures Ready(s, q, va / 4096) && va < 0x8000_0000
  {
    hide Kinds, Counted, SoleWriters, DirsApart, EntriesOk, PagesOk, Owns, Fills, HasByte, Layout;
    assert SpaceOk(s, s.procs[q]);
    BytesOwned(s.procs[q], va);
  }

  lemma WalkIs(s: State, q: nat, va: nat)
    requires Ready(s, q, va / 4096)
    ensures var d := s.procs[q].dir; var e := PteOf(s, d, va / 4096); Leads(s, d, va, e.frame, e.writable)
  {
    ReadyFacts(s, q, va / 4096);
    hide Inv, Owns, Ready;
    assert va / 4096 / 1024 == va / 0x40_0000;
  }

  /** The walk finds every byte of a live process in a frame in use, and that is what it sees. */
  lemma Walked(s: State, q: nat, va: nat) returns (f: nat)
    requires Inv(s) && q in s.procs && HasByte(s.procs[q], va)
    ensures var p := s.procs[q];
      && (Leads(s, p.dir, va, f, false) || Leads(s, p.dir, va, f, true))
      && f in s.data && |s.data[f]| == 4096 && Byte(View(s, p), va) == Some(s.data[f][va % 4096])
  {
    hide Leads, PteOf, Owns, HasByte, EntriesOk, PagesOk, Counted, SoleWriters, DirsApart, SpaceOk;
    OwnedReady(s, q, va);
    WalkIs(s, q, va);
    f := FrameOf(s, s.procs[q].dir, va / 4096);
    ReadyFacts(s, q, va / 4096);
    assert Kinds(s);
  }

  /** Every directory holds the kernel's 4 MB at entry 512, and nothing else but tables of its process. */
  lemma KernelThere(s: State, q: nat)
    requires Inv(s) && q in s.procs
    ensures var p := s.procs[q];
      && p.dir in s.dirs && |s.dirs[p.dir]| == 1024 && s.dirs[p.dir][512] == Large(0)
      && forall i :: 0 <= i < 1024 && i != 512 && !Fills(p, i) ==> s.dirs[p.dir][i] == Absent
  {
    hide Counted, SoleWriters, DirsApart, EntriesOk, PagesOk;
    var p := s.procs[q];
    assert SpaceOk(s, p) && Kinds(s);
    FillsApart(p, 512);
    forall i | 0 <= i < 1024 ensures s.dirs[p.dir][i] == Entry(s, p.dir, i) {}
  }

  // ---------- the steps and the runs ----------

  /** A loaded program finds each of its bytes in the frame its page went to, and may write it just
      when the page is one it may write. */
  lemma LoadBytes(s: State, pid: nat, l: Program, x: nat)
    requires Inv(s) && LoadEnabled(s, pid, l) && HasByte(l.proc, x)
    ensures var s', pg := Load(s, pid, l), x / 4096;
      && pg in l.frames && l.frames[pg] in l.pages && Leads(s', l.proc.dir, x, l.frames[pg], pg in l.writable)
      && l.frames[pg] in s'.data && s'.data[l.frames[pg]] == l.pages[l.frames[pg]]
  {
    hide LoadEnabled, Load, Owns, Fills, HasByte, PteOf, Leads, Views, Complete;
    BytesOwned(l.proc, x);
    LoadRefines(s, pid, l);
    LoadedProc(s, pid, l);
    NewPte(s, pid, l, x / 4096);
    LoadHas(s, pid, l);
    CompleteAt(l, x / 4096);
    NewData(s, pid, l, l.frames[x / 4096]);
    WalkIs(Load(s, pid, l), pid, x);
  }

  lemma LoadedProc(s: State, pid: nat, l: Program)
    ensures pid in Load(s, pid, l).procs && Load(s, pid, l).procs[pid] == l.proc
  {
  }

  /** A store writes its byte for the process that stores, and nothing else for anybody. */
  lemma StoreBytes(s: State, pid: nat, va: nat, b: bv8, f: nat, t: nat, q: nat, x: nat)
    requires StoreEnabled(s, pid, va, f, t) && q in s.procs && HasByte(s.procs[q], x)
    ensures var s', p := Store(s, pid, va, b, f, t), s.procs[q];
      && s'.procs == s.procs && Byte(View(s, p), x).Some?
      && Byte(View(s', p), x) == if q == pid && x == va then Some(b) else Byte(View(s, p), x)
  {
    hide Inv, Owns, HasByte, Store, View;
    StoreRefines(s, pid, va, b, f, t);
    var s' := Store(s, pid, va, b, f, t);
    assert Inv(s);
    var frame := Walked(s, q, x);
    assert Views(s')[q] == View(s', s.procs[q]) && Views(s)[q] == View(s, s.procs[q]);
    hide Views, Leads;
    SameByte(va, x);
  }

  lemma SameByte(a: nat, b: nat)
    ensures a == b <==> a / 4096 == b / 4096 && a % 4096 == b % 4096
  {
  }

  /** Copies of the child's pages leave the entries of everybody else's. */
  lemma {:induction false} CopiesKeep(s: State, child: nat, other: nat, pg: nat, spare: seq<(nat, nat)>, x: nat)
    requires Twins(s, child, other, pg, |spare|) && Spare(s.refs.Keys, spare) && Owns(s.procs[other], x)
    ensures var e := s.procs[other].dir;
      PteOf(PrivatizeAll(s, s.procs[child].dir, pg, spare), e, x) == PteOf(s, e, x)
    decreases |spare|
  {
    hide Privatize, Inv, Twins, Views, View, PteOf, Owns;
    TwinHas(s, child, other, pg, |spare|);
    if spare != [] {
      var f, t, rest := spare[0].0, spare[0].1, spare[1..];
      var d := s.procs[child].dir;
      var s1 := Privatize(s, d, pg, f, t);
      assert Spare(s.refs.Keys + {f, t}, rest);
      assert PrivatizeAll(s, d, pg, spare) == PrivatizeAll(s1, d, pg + 1, rest);
      TwinCount(s, child, other, pg, |spare|);
      PrivatizeInv(s, child, pg, f, t);
      TwinStep(s, child, other, pg, |spare|, f, t);
      hide Spare, PrivatizeAll;
      assert s1.refs.Keys == s.refs.Keys + {f, t};
      CopiesKeep(s1, child, other, pg + 1, rest, x);
    }
  }

  lemma ParentReadOnly(s: State, parent: nat, child: nat, d: nat, spare: seq<(nat, nat)>, x: nat)
    requires Inv(s) && ForkEnabled(s, parent, child, d, spare) && Owns(s.procs[parent], x)
    ensures !PteOf(Fork(s, parent, child, d, spare), s.procs[parent].dir, x).writable
  {
    hide Inv, Owns, Fork, Halfway, PteOf, MessagePages, Spare, Twins, Views, Forked, PrivatizeAll;
    var m := MessagePages(s.procs[parent].msg);
    var h := Halfway(s, parent, child, d);
    ForkIs(s, parent, child, d, spare);
    HalfwayForked(s, parent, child, d);
    ForkedEntries(s, h, parent, child, d, x);
    HalfwayRefines(s, parent, child, d, m.lo, |spare|);
    CopiesKeep(h, child, parent, m.lo, spare, x);
  }

  /** After a fork parent and child read the same bytes, and the parent may write none of them. */
  lemma ForkBytes(s: State, parent: nat, child: nat, d: nat, spare: seq<(nat, nat)>, x: nat) returns (f: nat)
    requires Inv(s) && ForkEnabled(s, parent, child, d, spare) && HasByte(s.procs[parent], x)
    ensures var s', p := Fork(s, parent, child, d, spare), s.procs[parent];
      && s'.procs == s.procs[child := p.(dir := d)] && Byte(View(s, p), x).Some?
      && Byte(View(s', p), x) == Byte(View(s', p.(dir := d)), x) == Byte(View(s, p), x)
      && Leads(s', p.dir, x, f, false)
  {
    hide Inv, Owns, HasByte, Fork, View, Leads, Spare, MessagePages;
    var s', p := Fork(s, parent, child, d, spare), s.procs[parent];
    ForkRefines(s, parent, child, d, spare);
    f := Walked(s, parent, x);
    assert Views(s')[child] == View(s', p.(dir := d)) && Views(s')[parent] == View(s', p);
    assert Views(s)[parent] == View(s, p);
    hide Views;
    f := Walked(s', parent, x);
    OwnedReady(s, parent, x);
    OwnedReady(s', parent, x);
    WalkIs(s', parent, x);
    f := FrameOf(s', p.dir, x / 4096);
    ParentReadOnly(s, parent, child, d, spare, x / 4096);
  }

  /** In every state a run reaches, each byte of stack and image of each live process is where the
      two tables lead, and is what it would be if every fork had copied every byte; the kernel's
      4 MB are mapped. */
  lemma RunBytes(s0: State, es: seq<Event>, s: State, q: nat, x: nat) returns (f: nat)
    requires Inv(s0) && ReachedBy(s0, es, s) && q in s.procs && HasByte(s.procs[q], x)
    ensures var d := s.procs[q].dir;
      && (Leads(s, d, x, f, false) || Leads(s, d, x, f, true)) && f in s.data && |s.data[f]| == 4096
      && d in s.dirs && |s.dirs[d]| == 1024 && s.dirs[d][512] == Large(0)
    ensures q in EagerRun(Views(s0), es) && Byte(EagerRun(Views(s0), es)[q], x) == Some(s.data[f][x % 4096])
  {
    hide Inv, HasByte, View, Leads, EagerRun, ReachedBy, Fills;
    RunRefines(s0, es, s);
    f := Walked(s, q, x);
    KernelThere(s, q);
    assert q in Views(s) && Views(s)[q] == View(s, s.procs[q]);
  }

  /** A frame somebody may write a byte of is nobody else's, and no other page. */
  lemma WritableAlone(s: State, q: nat, x: nat, r: nat, y: nat, f: nat, w: bool)
    requires Inv(s) && q in s.procs && r in s.procs && HasByte(s.procs[q], x) && HasByte(s.procs[r], y)
    requires Leads(s, s.procs[q].dir, x, f, true) && Leads(s, s.procs[r].dir, y, f, w)
    ensures q == r && x / 4096 == y / 4096
  {
    OwnedReady(s, q, x);
    OwnedReady(s, r, y);
    WalkIs(s, q, x);
    WalkIs(s, r, y);
    ReadyFacts(s, q, x / 4096);
    ReadyFacts(s, r, y / 4096);
    assert SoleWriters(s);
    hide Inv, Kinds, SpaceOk, Counted, DirsApart, HasByte, PteOf, Owns, Maps, Entry;
    SoleMapper(s, f, q, r);
  }
}
