/** A program loaded into fresh frames: what starting the first process, and `execve` once it
    has let go of the old program, put in place. */
module CowLoad {
  import opened Pages
  import opened CowSpec
  import opened CowShare
  import opened CowFault

  /** A process and the frames its pages and tables go to, both ways round; the pages of
      `writable` may be written. */
  datatype Program = Program(
    proc: Proc, frames: map<nat, nat>, homes: map<nat, nat>, pages: map<nat, Page>,
    tables: map<nat, nat>, slots: map<nat, nat>, writable: set<nat>)

  /** `b` undoes `a`. */
  ghost predicate Inverse(a: map<nat, nat>, b: map<nat, nat>) {
    && (forall x :: x in a ==> a[x] in b && b[a[x]] == x)
    && forall y :: y in b ==> b[y] in a && a[b[y]] == y
  }

  /** Each entry fork would share has a page behind it: the loader makes tables for pages only.
      An image that ends at a 4 MB boundary has none for the table of `program_break`. */
  ghost predicate Backed(p: Proc) {
    forall i: nat :: Fills(p, i) ==> exists pg: nat :: Owns(p, pg) && Pdx(pg) == i
  }

  /** A frame for each page, a table for each entry. */
  ghost predicate Complete(l: Program) {
    && Layout(l.proc) && Backed(l.proc)
    && Inverse(l.frames, l.homes) && Inverse(l.tables, l.slots) && l.pages.Keys == l.homes.Keys
    && (forall pg: nat :: pg in l.frames <==> Owns(l.proc, pg))
    && (forall i: nat :: i in l.tables <==> Fills(l.proc, i))
    && forall f :: f in l.pages ==> |l.pages[f]| == PG_SIZE
  }

  ghost predicate Fresh(used: set<nat>, l: Program) {
    && l.proc.dir !in used && l.homes.Keys !! used && l.slots.Keys !! used
    && l.proc.dir !in l.homes && l.proc.dir !in l.slots && l.homes.Keys !! l.slots.Keys
  }

  function TableFor(l: Program, i: nat): seq<Pte> {
    seq(PTE_PER_PDE, j => var pg := i * PTE_PER_PDE + j;
      if pg in l.frames then Pte(true, pg in l.writable, l.frames[pg]) else Pte(false, false, 0))
  }

  function DirFor(l: Program): seq<Pde> {
    seq(PTE_PER_PDE, i requires 0 <= i < PTE_PER_PDE => if i in l.tables then Table(l.tables[i]) else NewDir()[i])
  }

  function NewTablesOf(l: Program): map<nat, seq<Pte>> {
    map t | t in l.slots :: TableFor(l, l.slots[t])
  }

  /** Every new frame has a count of one. */
  function Once(l: Program): map<nat, int> {
    map f | f in l.homes.Keys + l.slots.Keys + {l.proc.dir} :: 1
  }

  function Load(s: State, pid: nat, l: Program): State {
    State(s.data + l.pages, s.tables + NewTablesOf(l), s.dirs[l.proc.dir := DirFor(l)], s.refs + Once(l),
          s.procs[pid := l.proc], s.home + l.homes, s.slot + l.slots)
  }

  ghost predicate LoadEnabled(s: State, pid: nat, l: Program) {
    pid !in s.procs && Complete(l) && Fresh(s.refs.Keys, l)
  }

  /** What the new process sees. */
  function Loaded(l: Program): map<nat, Page> {
    map pg | pg in l.frames && l.frames[pg] in l.pages :: l.pages[l.frames[pg]]
  }

  // ---------- the new process ----------

  lemma LoadHas(s: State, pid: nat, l: Program)
    requires LoadEnabled(s, pid, l)
    ensures Complete(l) && Fresh(s.refs.Keys, l) && pid !in s.procs && l.pages.Keys == l.homes.Keys
  {
    hide Owns, Fills, Layout, Backed, Inverse, Fresh;
  }

  lemma NewEntries(s: State, pid: nat, l: Program)
    requires LoadEnabled(s, pid, l)
    ensures var s' := Load(s, pid, l);
      && (forall i: nat :: Fills(l.proc, i) ==> i in l.tables && Entry(s', l.proc.dir, i) == Table(l.tables[i]))
      && forall i :: !Fills(l.proc, i) ==> Entry(s', l.proc.dir, i) == OtherEntry(i)
  {
    var s' := Load(s, pid, l);
    hide Inverse, Owns, Backed, Fresh, TableFor, Once;
    forall i: nat | Fills(l.proc, i) ensures i in l.tables && Entry(s', l.proc.dir, i) == Table(l.tables[i]) {
      FillsApart(l.proc, i);
    }
    hide Fills, Layout;
  }

  lemma NewTables(s: State, pid: nat, l: Program, t: nat)
    requires t in l.slots
    ensures var s' := Load(s, pid, l);
      t in s'.tables && s'.tables[t] == TableFor(l, l.slots[t]) && Slot(s', t) == l.slots[t]
  {
    hide TableFor, DirFor, Once;
  }

  /** Entry `Ptx(pg)` of the table of page `pg`. */
  lemma TableForAt(l: Program, pg: nat)
    requires pg in l.frames
    ensures |TableFor(l, Pdx(pg))| == PTE_PER_PDE && Ptx(pg) < PTE_PER_PDE
    ensures TableFor(l, Pdx(pg))[Ptx(pg)] == Pte(true, pg in l.writable, l.frames[pg])
  {
    assert Pdx(pg) * PTE_PER_PDE + Ptx(pg) == pg;
  }

  /** What `LoadEnabled` says of a page and a table of the program. */
  lemma CompleteAt(l: Program, x: nat)
    requires Complete(l)
    ensures Layout(l.proc)
    ensures Owns(l.proc, x) <==> x in l.frames
    ensures Fills(l.proc, x) <==> x in l.tables
    ensures x in l.frames ==> l.frames[x] in l.homes && l.homes[l.frames[x]] == x && l.frames[x] in l.pages
    ensures x in l.homes ==> l.homes[x] in l.frames && l.frames[l.homes[x]] == x
    ensures x in l.tables ==> l.tables[x] in l.slots && l.slots[l.tables[x]] == x
    ensures x in l.slots ==> l.slots[x] in l.tables && l.tables[l.slots[x]] == x
  {
    hide Layout, Backed, Owns, Fills;
  }

  lemma NewPte(s: State, pid: nat, l: Program, pg: nat)
    requires LoadEnabled(s, pid, l) && Owns(l.proc, pg)
    ensures pg in l.frames && PteOf(Load(s, pid, l), l.proc.dir, pg) == Pte(true, pg in l.writable, l.frames[pg])
  {
    hide Complete;
    LoadHas(s, pid, l);
    CompleteAt(l, pg);
    OwnsFills(l.proc, pg);
    var i: nat := Pdx(pg);
    CompleteAt(l, i);
    NewEntries(s, pid, l);
    NewTables(s, pid, l, l.tables[i]);
    TableForAt(l, pg);
    hide Owns, Fills, LoadEnabled, Load, Entry, Pdx, Ptx, TableFor;
  }

  lemma NewMaps(s: State, pid: nat, l: Program, y: nat)
    requires Kinds(s) && LoadEnabled(s, pid, l)
    ensures Maps(Load(s, pid, l), l.proc, y) <==> y in l.homes
  {
    hide Complete, Owns, PteOf, LoadEnabled, Load, Home, Kinds;
    LoadHas(s, pid, l);
    var s' := Load(s, pid, l);
    var h := Home(s', y);
    NewKeys(s, pid, l, y);
    assert Owns(l.proc, h) ==> h >= 0 by { NoPage(l.proc, h); }
    if Owns(l.proc, h) {
      NewPte(s, pid, l, h);
      CompleteAt(l, h);
    }
    if y in l.homes {
      CompleteAt(l, y);
      CompleteAt(l, l.homes[y]);
    }
  }

  lemma NewUses(s: State, pid: nat, l: Program, y: nat)
    requires Kinds(s) && LoadEnabled(s, pid, l)
    ensures Uses(Load(s, pid, l), l.proc, y) <==> y in l.slots
  {
    hide Complete, Entry, Fills, LoadEnabled, Load, Slot, Kinds;
    LoadHas(s, pid, l);
    var s' := Load(s, pid, l);
    var i := Slot(s', y);
    NewKeys(s, pid, l, y);
    NewEntries(s, pid, l);
    assert Fills(l.proc, i) ==> i >= 0 by { NoPage(l.proc, i); }
    if Fills(l.proc, i) { CompleteAt(l, i); }
    if y in l.slots {
      CompleteAt(l, y);
      CompleteAt(l, l.slots[y]);
    }
  }

  /** Pages and entries are numbered from 0. */
  lemma NoPage(p: Proc, i: int)
    ensures Owns(p, i) || Fills(p, i) ==> i >= 0
  {
  }

  /** The page and the slot of any frame, old or new. */
  lemma NewKeys(s: State, pid: nat, l: Program, y: nat)
    requires LoadEnabled(s, pid, l)
    ensures var s' := Load(s, pid, l);
      && Home(s', y) == (if y in l.homes then l.homes[y] else Home(s, y))
      && Slot(s', y) == (if y in l.slots then l.slots[y] else Slot(s, y))
      && ((y in l.homes || y in l.slots) ==> y !in s.refs)
  {
    hide Complete, NewTablesOf, DirFor, Once;
  }

  lemma NewEntriesOk(s: State, pid: nat, l: Program)
    requires LoadEnabled(s, pid, l)
    ensures EntriesOk(Load(s, pid, l), l.proc)
  {
    hide Complete, LoadEnabled, Load, Entry, Fills, Slot;
    var s', p := Load(s, pid, l), l.proc;
    LoadHas(s, pid, l);
    NewEntries(s, pid, l);
    forall i: nat | Fills(p, i)
      ensures i in l.tables && l.tables[i] in s'.tables && Slot(s', l.tables[i]) == i
    {
      CompleteAt(l, i);
      NewTables(s, pid, l, l.tables[i]);
    }
    forall i ensures Fills(p, i) ==> i >= 0 { NoPage(p, i); }
  }

  lemma NewPagesOk(s: State, pid: nat, l: Program)
    requires Kinds(s) && LoadEnabled(s, pid, l)
    ensures PagesOk(Load(s, pid, l), l.proc)
  {
    hide Complete, LoadEnabled, Load, PteOf, Owns, Home, Kinds;
    var s', p := Load(s, pid, l), l.proc;
    LoadHas(s, pid, l);
    forall pg: nat | Owns(p, pg)
      ensures pg in l.frames && PteOf(s', p.dir, pg) == Pte(true, pg in l.writable, l.frames[pg])
      ensures l.frames[pg] in s'.data && Home(s', l.frames[pg]) == pg
    {
      NewPte(s, pid, l, pg);
      CompleteAt(l, pg);
      NewKeys(s, pid, l, l.frames[pg]);
      NewData(s, pid, l, l.frames[pg]);
    }
  }

  lemma NewSpace(s: State, pid: nat, l: Program)
    requires Kinds(s) && LoadEnabled(s, pid, l)
    ensures SpaceOk(Load(s, pid, l), l.proc)
  {
    hide Complete, Entry, Fills, Layout, EntriesOk, PagesOk;
    LoadHas(s, pid, l);
    CompleteAt(l, 0);
    assert l.proc.dir in Load(s, pid, l).dirs;
    hide LoadEnabled, Load, Kinds;
    NewEntries(s, pid, l);
    NewEntriesOk(s, pid, l);
    NewPagesOk(s, pid, l);
  }

  lemma NewData(s: State, pid: nat, l: Program, f: nat)
    requires LoadEnabled(s, pid, l) && f in l.pages
    ensures var s' := Load(s, pid, l); f in s'.data && s'.data[f] == l.pages[f]
  {
    hide Complete, Fresh;
  }

  lemma NewFrame(s: State, pid: nat, l: Program, pg: nat)
    requires LoadEnabled(s, pid, l)
    ensures Owns(l.proc, pg) <==> pg in l.frames
    ensures pg in l.frames ==> l.frames[pg] in l.pages
    ensures Owns(l.proc, pg) ==> var s' := Load(s, pid, l);
      && pg < KERN_BASE / PG_SIZE && FrameOf(s', l.proc.dir, pg) == l.frames[pg]
      && PageAt(s', l.frames[pg]) == l.pages[l.frames[pg]]
  {
    hide Complete, LoadEnabled, Load, PteOf, Owns, Fills;
    LoadHas(s, pid, l);
    CompleteAt(l, pg);
    if Owns(l.proc, pg) {
      OwnsFills(l.proc, pg);
      NewPte(s, pid, l, pg);
      NewData(s, pid, l, l.frames[pg]);
    }
  }

  lemma NewView(s: State, pid: nat, l: Program)
    requires LoadEnabled(s, pid, l)
    ensures View(Load(s, pid, l), l.proc) == Loaded(l)
  {
    hide LoadEnabled, Load, FrameOf, Owns, PageAt;
    forall pg: nat
      ensures Owns(l.proc, pg) <==> pg in l.frames
      ensures pg in l.frames ==> l.frames[pg] in l.pages
      ensures Owns(l.proc, pg) ==> var s' := Load(s, pid, l);
        && pg < KERN_BASE / PG_SIZE && FrameOf(s', l.proc.dir, pg) == l.frames[pg]
        && PageAt(s', l.frames[pg]) == l.pages[l.frames[pg]]
    {
      NewFrame(s, pid, l, pg);
    }
  }

  // ---------- the others ----------

  lemma LoadKeepsAt(s: State, pid: nat, l: Program, f: nat)
    requires LoadEnabled(s, pid, l) && f in s.refs
    ensures var s' := Load(s, pid, l);
      && (f in s.data ==> f in s'.data && s'.data[f] == s.data[f])
      && (f in s.tables ==> f in s'.tables && s'.tables[f] == s.tables[f])
      && (f in s.dirs ==> f in s'.dirs && s'.dirs[f] == s.dirs[f])
      && Home(s', f) == Home(s, f) && Slot(s', f) == Slot(s, f) && Ref(s', f) == Ref(s, f)
  {
    hide Complete, TableFor, DirFor;
    LoadHas(s, pid, l);
  }

  /** The frames, tables and directories in use are as they were. */
  ghost predicate Keeps(s: State, s': State) {
    && (forall f :: f in s.data ==> f in s'.data && s'.data[f] == s.data[f] && Home(s', f) == Home(s, f))
    && (forall t :: t in s.tables ==> t in s'.tables && s'.tables[t] == s.tables[t] && Slot(s', t) == Slot(s, t))
    && (forall d :: d in s.dirs ==> d in s'.dirs && s'.dirs[d] == s.dirs[d])
    && forall f :: f in s.refs ==> Ref(s', f) == Ref(s, f)
  }

  lemma LoadKeeps(s: State, pid: nat, l: Program)
    requires Kinds(s) && LoadEnabled(s, pid, l)
    ensures Keeps(s, Load(s, pid, l))
  {
    hide LoadEnabled, Load, Home, Slot, Ref;
    assert s.data.Keys <= s.refs.Keys && s.tables.Keys <= s.refs.Keys && s.dirs.Keys <= s.refs.Keys;
    hide Kinds;
    forall f | f in s.refs
      ensures var s' := Load(s, pid, l);
        && (f in s.data ==> f in s'.data && s'.data[f] == s.data[f])
        && (f in s.tables ==> f in s'.tables && s'.tables[f] == s.tables[f])
        && (f in s.dirs ==> f in s'.dirs && s'.dirs[f] == s.dirs[f])
        && Home(s', f) == Home(s, f) && Slot(s', f) == Slot(s, f) && Ref(s', f) == Ref(s, f)
    {
      LoadKeepsAt(s, pid, l, f);
    }
    assert forall f :: f in s.data.Keys || f in s.tables.Keys || f in s.dirs.Keys ==> f in s.refs.Keys;
  }

  lemma OldLookups(s: State, pid: nat, l: Program, q: nat)
    requires Inv(s) && LoadEnabled(s, pid, l) && q in s.procs
    ensures var p, s' := s.procs[q], Load(s, pid, l);
      && p.dir in s'.dirs && (forall i :: Entry(s', p.dir, i) == Entry(s, p.dir, i))
      && forall pg: nat :: Owns(p, pg) ==> PteOf(s', p.dir, pg) == PteOf(s, p.dir, pg)
  {
    hide LoadEnabled, Load, Owns, Fills, Layout, Counted, SoleWriters, DirsApart, PagesOk, Pdx, Ptx;
    var p, s' := s.procs[q], Load(s, pid, l);
    assert Kinds(s) && SpaceOk(s, p);
    LoadKeeps(s, pid, l);
    hide Inv, Kinds;
    assert forall i :: Entry(s', p.dir, i) == Entry(s, p.dir, i);
    forall pg: nat | Owns(p, pg) ensures PteOf(s', p.dir, pg) == PteOf(s, p.dir, pg) {
      OwnsFills(p, pg);
      assert Entry(s', p.dir, Pdx(pg)) == Entry(s, p.dir, Pdx(pg));
    }
  }

  lemma OldView(s: State, pid: nat, l: Program, q: nat)
    requires Inv(s) && LoadEnabled(s, pid, l) && q in s.procs
    ensures View(Load(s, pid, l), s.procs[q]) == View(s, s.procs[q])
  {
    hide LoadEnabled, Load, Owns, Fills, Layout, Counted, SoleWriters, DirsApart, PteOf, Entry, EntriesOk, Home;
    assert Kinds(s) && SpaceOk(s, s.procs[q]);
    LoadKeeps(s, pid, l);
    OldLookups(s, pid, l, q);
    hide Inv, Kinds;
  }

  lemma OldSpace(s: State, pid: nat, l: Program, q: nat)
    requires Inv(s) && LoadEnabled(s, pid, l) && q in s.procs
    ensures SpaceOk(Load(s, pid, l), s.procs[q])
  {
    hide LoadEnabled, Load, Owns, Fills, Layout, Counted, SoleWriters, DirsApart, PteOf, Entry, Home, Slot;
    assert Kinds(s) && SpaceOk(s, s.procs[q]);
    LoadKeeps(s, pid, l);
    OldLookups(s, pid, l, q);
    hide Inv, Kinds;
  }

  lemma OldMaps(s: State, pid: nat, l: Program, q: nat, y: nat)
    requires Inv(s) && LoadEnabled(s, pid, l) && q in s.procs
    ensures var s' := Load(s, pid, l);
      Maps(s', s.procs[q], y) == Maps(s, s.procs[q], y) && Uses(s', s.procs[q], y) == Uses(s, s.procs[q], y)
    ensures y !in s.refs ==> !Maps(s, s.procs[q], y) && !Uses(s, s.procs[q], y)
  {
    hide LoadEnabled, Load, Owns, Fills, Layout, PteOf, Entry, Counted, SoleWriters, DirsApart;
    var p, s' := s.procs[q], Load(s, pid, l);
    assert SpaceOk(s, p) && Kinds(s);
    OldLookups(s, pid, l, q);
    NewKeys(s, pid, l, y);
    assert y !in s.refs ==> Home(s, y) == -1 && Slot(s, y) == -1 && y !in s.data && y !in s.tables;
    NoPage(p, -1);
    hide Inv, Kinds, Home, Slot;
  }

  /** One more process, the others mapping what they mapped. */
  lemma MappersGrow(s: State, s': State, pid: nat, p: Proc, y: nat)
    requires pid !in s.procs && s'.procs == s.procs[pid := p]
    requires forall q :: q in s.procs ==>
      Maps(s', s.procs[q], y) == Maps(s, s.procs[q], y) && Uses(s', s.procs[q], y) == Uses(s, s.procs[q], y)
    ensures Mappers(s', y) == Mappers(s, y) + if Maps(s', p, y) then {pid} else {}
    ensures Users(s', y) == Users(s, y) + if Uses(s', p, y) then {pid} else {}
    ensures pid !in Mappers(s, y) && pid !in Users(s, y)
  {
    hide Maps, Uses;
  }

  lemma LoadMappers(s: State, pid: nat, l: Program, y: nat)
    requires Inv(s) && LoadEnabled(s, pid, l)
    ensures var s' := Load(s, pid, l);
      && Mappers(s', y) == Mappers(s, y) + (if y in l.homes then {pid} else {})
      && Users(s', y) == Users(s, y) + (if y in l.slots then {pid} else {})
      && pid !in Mappers(s, y) && pid !in Users(s, y)
    ensures y !in s.refs ==> Mappers(s, y) == {} && Users(s, y) == {}
  {
    hide Complete, Fresh, Maps, Uses, Kinds, Counted, SoleWriters, DirsApart, SpaceOk;
    LoadHas(s, pid, l);
    var s' := Load(s, pid, l);
    assert s'.procs == s.procs[pid := l.proc];
    assert Kinds(s);
    hide LoadEnabled, Load;
    NewMaps(s, pid, l, y);
    NewUses(s, pid, l, y);
    forall q | q in s.procs
      ensures Maps(s', s.procs[q], y) == Maps(s, s.procs[q], y) && Uses(s', s.procs[q], y) == Uses(s, s.procs[q], y)
      ensures y !in s.refs ==> !Maps(s, s.procs[q], y) && !Uses(s, s.procs[q], y)
    {
      OldMaps(s, pid, l, q, y);
    }
    hide Inv;
    assert y !in s.refs ==> Mappers(s, y) == {} && Users(s, y) == {};
    hide Mappers, Users;
    MappersGrow(s, s', pid, l.proc, y);
  }

  // ---------- the invariant ----------

  lemma MergedKeys<K, V>(a: map<K, V>, b: map<K, V>)
    ensures (a + b).Keys == a.Keys + b.Keys
  {
  }

  lemma LoadRefKeys(s: State, pid: nat, l: Program)
    ensures Load(s, pid, l).refs.Keys == s.refs.Keys + l.homes.Keys + l.slots.Keys + {l.proc.dir}
  {
    hide TableFor, DirFor, NewTablesOf;
    var n := l.homes.Keys + l.slots.Keys + {l.proc.dir};
    assert Once(l).Keys == n;
    hide Once;
    MergedKeys(s.refs, Once(l));
    assert s.refs.Keys + n == s.refs.Keys + l.homes.Keys + l.slots.Keys + {l.proc.dir};
  }

  lemma LoadTableKeys(s: State, pid: nat, l: Program)
    ensures var s' := Load(s, pid, l);
      && s'.tables.Keys == s.tables.Keys + l.slots.Keys && s'.slot.Keys == s.slot.Keys + l.slots.Keys
      && s'.dirs.Keys == s.dirs.Keys + {l.proc.dir}
  {
    hide TableFor, DirFor, Once;
    assert NewTablesOf(l).Keys == l.slots.Keys;
    hide NewTablesOf;
    MergedKeys(s.tables, NewTablesOf(l));
    MergedKeys(s.slot, l.slots);
  }

  lemma LoadKeys(s: State, pid: nat, l: Program)
    requires Kinds(s) && LoadEnabled(s, pid, l)
    ensures var s' := Load(s, pid, l);
      && s'.refs.Keys == s.refs.Keys + l.homes.Keys + l.slots.Keys + {l.proc.dir}
      && s'.data.Keys == s.data.Keys + l.homes.Keys && s'.home.Keys == s'.data.Keys
      && s'.tables.Keys == s.tables.Keys + l.slots.Keys && s'.slot.Keys == s'.tables.Keys
      && s'.dirs.Keys == s.dirs.Keys + {l.proc.dir}
  {
    hide Complete, Fresh, NewTablesOf, DirFor, Once;
    LoadHas(s, pid, l);
    assert s.home.Keys == s.data.Keys && s.slot.Keys == s.tables.Keys;
    hide Kinds, LoadEnabled;
    MergedKeys(s.data, l.pages);
    MergedKeys(s.home, l.homes);
    LoadRefKeys(s, pid, l);
    LoadTableKeys(s, pid, l);
  }

  lemma LoadCounts(s: State, pid: nat, l: Program, f: nat)
    requires LoadEnabled(s, pid, l) && (f in l.homes || f in l.slots)
    ensures f !in s.refs && Ref(Load(s, pid, l), f) == 1
  {
    hide Complete, TableFor, DirFor;
  }

  lemma LoadSizes(l: Program)
    ensures (forall i :: |TableFor(l, i)| == PTE_PER_PDE) && |DirFor(l)| == PTE_PER_PDE
    ensures Complete(l) ==> forall f :: f in l.pages ==> |l.pages[f]| == PG_SIZE
  {
    hide Layout, Backed, Owns, Fills, Inverse;
  }

  lemma LoadLengths(s: State, pid: nat, l: Program)
    requires Kinds(s) && LoadEnabled(s, pid, l)
    ensures Lengths(Load(s, pid, l))
  {
    hide Complete, TableFor, DirFor;
    LoadSizes(l);
  }

  /** Three disjoint sets that make up `all` stay so when each grows by new members. */
  lemma AllGrownApart(a: set<nat>, b: set<nat>, c: set<nat>, all: set<nat>, f: set<nat>, t: set<nat>, d: set<nat>)
    requires a !! b && a !! c && b !! c && all == a + b + c
    requires f !! all && t !! all && d !! all && f !! t && f !! d && t !! d
    ensures a + f !! b + t && a + f !! c + d && b + t !! c + d && all + f + t + d == (a + f) + (b + t) + (c + d)
  {
  }

  lemma LoadKinds(s: State, pid: nat, l: Program)
    requires Kinds(s) && LoadEnabled(s, pid, l)
    ensures Kinds(Load(s, pid, l))
  {
    hide Complete;
    LoadHas(s, pid, l);
    hide LoadEnabled, Load;
    AllGrownApart(s.data.Keys, s.tables.Keys, s.dirs.Keys, s.refs.Keys, l.homes.Keys, l.slots.Keys, {l.proc.dir});
    hide Fresh;
    LoadKeys(s, pid, l);
    LoadLengths(s, pid, l);
  }

  lemma LoadCountedAt(s: State, pid: nat, l: Program, f: nat)
    requires Inv(s) && LoadEnabled(s, pid, l)
    ensures var s' := Load(s, pid, l);
      && (f in s'.data ==> Ref(s', f) == |Mappers(s', f)| && Ref(s', f) > 0)
      && (f in s'.tables ==> Ref(s', f) - |Users(s', f)| == if f in s.tables then Ref(s, f) - |Users(s, f)| else 0)
  {
    hide LoadEnabled, Load, Mappers, Users, Ref, SoleWriters, DirsApart, SpaceOk;
    LoadMappers(s, pid, l, f);
    if f in l.homes || f in l.slots { LoadCounts(s, pid, l, f); }
    LoadKeys(s, pid, l);
    LoadKeeps(s, pid, l);
    assert f in s.data.Keys || f in s.tables.Keys ==> f in s.refs.Keys;
    assert f in s.data.Keys ==> f !in l.homes && Ref(s, f) == |Mappers(s, f)| && Ref(s, f) > 0;
  }

  lemma LoadCounted(s: State, pid: nat, l: Program)
    requires Inv(s) && LoadEnabled(s, pid, l)
    ensures Counted(Load(s, pid, l))
  {
    hide LoadEnabled, Load, Mappers, Users, Ref, SoleWriters, DirsApart, SpaceOk, Kinds;
    forall f ensures
      var s' := Load(s, pid, l);
      && (f in s'.data ==> Ref(s', f) == |Mappers(s', f)| && Ref(s', f) > 0)
      && (f in s'.tables ==> Ref(s', f) >= |Users(s', f)|)
    {
      LoadCountedAt(s, pid, l, f);
    }
  }

  lemma LoadWriterAt(s: State, pid: nat, l: Program, q: nat, pg: nat)
    requires Inv(s) && LoadEnabled(s, pid, l) && q in s.procs && Owns(s.procs[q], pg)
    requires var s' := Load(s, pid, l); PteOf(s', s.procs[q].dir, pg).writable
    ensures var s' := Load(s, pid, l); Ref(s', FrameOf(s', s.procs[q].dir, pg)) == 1
  {
    hide LoadEnabled, Load, Owns, PteOf, Counted, DirsApart, Ref;
    OldLookups(s, pid, l, q);
    ReadyFacts(s, q, pg);
    LoadKeepsAt(s, pid, l, FrameOf(s, s.procs[q].dir, pg));
    hide Kinds, SpaceOk;
  }

  lemma LoadWriters(s: State, pid: nat, l: Program)
    requires Inv(s) && LoadEnabled(s, pid, l)
    ensures SoleWriters(Load(s, pid, l))
  {
    hide Complete, Inv, Owns, PteOf, Ref;
    LoadHas(s, pid, l);
    var s' := Load(s, pid, l);
    assert s'.procs == s.procs[pid := l.proc];
    hide Load, LoadEnabled;
    forall q, pg: nat | q in s'.procs && Owns(s'.procs[q], pg) && PteOf(s', s'.procs[q].dir, pg).writable
      ensures Ref(s', FrameOf(s', s'.procs[q].dir, pg)) == 1
    {
      if q == pid {
        NewPte(s, pid, l, pg);
        CompleteAt(l, pg);
        LoadCounts(s, pid, l, l.frames[pg]);
      } else {
        LoadWriterAt(s, pid, l, q, pg);
      }
    }
  }

  lemma LoadViews(s: State, s': State, pid: nat, p: Proc)
    requires pid !in s.procs && s'.procs == s.procs[pid := p]
    requires forall q :: q in s.procs ==> View(s', s.procs[q]) == View(s, s.procs[q])
    ensures Views(s') == Views(s)[pid := View(s', p)]
  {
    hide View;
  }

  lemma LoadDirs(s: State, s': State, pid: nat, p: Proc)
    requires pid !in s.procs && s'.procs == s.procs[pid := p] && DirsApart(s) && p.dir !in s.dirs
    requires forall q :: q in s.procs ==> s.procs[q].dir in s.dirs
    ensures DirsApart(s')
  {
  }

  /** A loaded program sees its own pages and nobody else's, and nobody else sees a change. */
  lemma LoadRefines(s: State, pid: nat, l: Program)
    requires Inv(s) && LoadEnabled(s, pid, l)
    ensures Inv(Load(s, pid, l)) && Views(Load(s, pid, l)) == Views(s)[pid := Loaded(l)]
  {
    hide Complete, Kinds, Counted, SoleWriters, View, Layout, EntriesOk, PagesOk, Entry, DirsApart;
    var s' := Load(s, pid, l);
    LoadHas(s, pid, l);
    assert Kinds(s) && DirsApart(s) && s'.procs == s.procs[pid := l.proc];
    assert l.proc.dir !in s.dirs by { DirInUse(s, l.proc.dir); }
    hide LoadEnabled, Load;
    LoadKinds(s, pid, l);
    LoadCounted(s, pid, l);
    LoadWriters(s, pid, l);
    NewSpace(s, pid, l);
    NewView(s, pid, l);
    forall q | q in s.procs
      ensures s.procs[q].dir in s.dirs && SpaceOk(s', s.procs[q]) && View(s', s.procs[q]) == View(s, s.procs[q])
    {
      OldSpace(s, pid, l, q);
      OldView(s, pid, l, q);
      assert SpaceOk(s, s.procs[q]);
    }
    hide Inv, SpaceOk;
    LoadDirs(s, s', pid, l.proc);
    LoadViews(s, s', pid, l.proc);
    InvIs(s');
  }

  lemma DirInUse(s: State, d: nat)
    requires Kinds(s) && d !in s.refs
    ensures d !in s.dirs
  {
  }
}
