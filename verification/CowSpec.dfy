/** Copy-on-write address spaces: page frames, page tables and page directories shared
    by reference count, as `fork`, the page-fault handler and `exit` change them.
    Lookups are total (an absent entry reads as nothing); the invariant says
    when that cannot happen. */
module CowSpec {
  import opened Pages

  const KERN_BASE: nat := 0x8000_0000
  const MESSAGE_SIZE: nat := 32

  type Page = seq<bv8>

  /** `image_start` and `program_break`. */
  datatype Image = NoImage | Image(start: nat, end: nat)

  /** A process with an address space; `msg` is `p_msg`, 0 for NULL. */
  datatype Proc = Proc(dir: nat, stack: nat, stackSize: nat, image: Image, msg: nat)

  /** Frames in use by kind, their reference counts, and the live processes.
      `home` is the page a data frame stands for, `slot` the directory entry a table fills:
      sharing and copying never change them. */
  datatype State = State(
    data: map<nat, Page>, tables: map<nat, seq<Pte>>, dirs: map<nat, seq<Pde>>,
    refs: map<nat, int>, procs: map<nat, Proc>, home: map<nat, nat>, slot: map<nat, nat>)

  // ---------- layout of an address space, in page numbers and directory entries ----------

  datatype Span = Span(lo: nat, hi: nat) {
    predicate Has(x: int) { lo <= x < hi }
  }

  function PageDown(va: nat): nat { va / PG_SIZE }

  function PageUp(va: nat): nat { (va + PG_SIZE - 1) / PG_SIZE }

  /** `va >> 22`. */
  function Region(va: nat): nat { va / (PG_SIZE * PTE_PER_PDE) }

  function StackPages(p: Proc): Span {
    Span(PageDown(p.stack), PageUp(p.stack + p.stackSize))
  }

  function StackTables(p: Proc): Span {
    Span(Region(p.stack), Region(p.stack + p.stackSize))
  }

  function ImagePages(p: Proc): Span {
    if p.image.NoImage? then Span(0, 0) else Span(PageDown(p.image.start), PageUp(p.image.end))
  }

  /** The tables fork shares: the one of `program_break` too. */
  function ImageTables(p: Proc): Span {
    if p.image.NoImage? then Span(0, 0) else Span(Region(p.image.start), Region(p.image.end) + 1)
  }

  /** The tables exit drops: the one of `program_break` is left out. */
  function DroppedTables(p: Proc): Span {
    if p.image.NoImage? then Span(0, 0) else Span(Region(p.image.start), Region(p.image.end))
  }

  predicate Owns(p: Proc, pg: int) {
    StackPages(p).Has(pg) || ImagePages(p).Has(pg)
  }

  predicate Fills(p: Proc, i: int) {
    StackTables(p).Has(i) || ImageTables(p).Has(i)
  }

  /** The stack ends at a 4 MB boundary below the kernel, the image lies in lower 4 MB regions. */
  predicate Layout(p: Proc) {
    && (p.stack + p.stackSize) % (PG_SIZE * PTE_PER_PDE) == 0 && p.stack + p.stackSize <= KERN_BASE
    && (p.image.Image? ==> Region(p.image.end) < Region(p.stack))
  }

  // ---------- lookups ----------

  function Entry(s: State, d: nat, i: int): Pde {
    if d in s.dirs && 0 <= i < |s.dirs[d]| then s.dirs[d][i] else Absent
  }

  function PteIn(s: State, e: Pde, j: nat): Pte {
    if e.Table? && e.frame in s.tables && j < |s.tables[e.frame]| then s.tables[e.frame][j] else Pte(false, false, 0)
  }

  /** `get_pte`. */
  function PteOf(s: State, d: nat, pg: nat): Pte {
    PteIn(s, Entry(s, d, Pdx(pg)), Ptx(pg))
  }

  function TableOf(s: State, d: nat, pg: nat): nat {
    var e := Entry(s, d, Pdx(pg));
    if e.Table? then e.frame else 0
  }

  /** `vir2phy`, without the offset in the page. */
  function FrameOf(s: State, d: nat, pg: nat): nat {
    PteOf(s, d, pg).frame
  }

  function Ref(s: State, f: nat): int {
    if f in s.refs then s.refs[f] else 0
  }

  function PageAt(s: State, f: nat): Page {
    if f in s.data then s.data[f] else []
  }

  function Home(s: State, f: nat): int {
    if f in s.home then s.home[f] else -1
  }

  function Slot(s: State, f: nat): int {
    if f in s.slot then s.slot[f] else -1
  }

  // ---------- writes ----------

  function SetRef(s: State, f: nat, r: int): State {
    s.(refs := s.refs[f := r])
  }

  function SetPte(s: State, d: nat, pg: nat, e: Pte): State {
    var t := TableOf(s, d, pg);
    if Entry(s, d, Pdx(pg)).Table? && t in s.tables && Ptx(pg) < |s.tables[t]| then
      s.(tables := s.tables[t := s.tables[t][Ptx(pg) := e]])
    else s
  }

  function SetPde(s: State, d: nat, i: nat, e: Pde): State {
    if d in s.dirs && i < |s.dirs[d]| then s.(dirs := s.dirs[d := s.dirs[d][i := e]]) else s
  }

  // ---------- fork ----------

  /** A new directory: the kernel's mapping and nothing else. */
  function NewDir(): seq<Pde> {
    seq(PTE_PER_PDE, i => if i == Region(KERN_BASE) then Large(0) else Absent)
  }

  function CreateDir(s: State, d: nat): State {
    s.(dirs := s.dirs[d := NewDir()], refs := s.refs[d := 1])
  }

  function ShareTable(s: State, src: nat, d: nat, i: nat): State {
    var e := Entry(s, src, i);
    var t := if e.Table? then e.frame else 0;
    SetRef(SetPde(s, d, i, e), t, Ref(s, t) + 1)
  }

  function ShareTables(s: State, src: nat, d: nat, lo: nat, hi: nat): State
    decreases hi
  {
    if hi <= lo then s else ShareTable(ShareTables(s, src, d, lo, hi - 1), src, d, hi - 1)
  }

  function SharePage(s: State, d: nat, pg: nat): State {
    var f := FrameOf(s, d, pg);
    SetRef(SetPte(s, d, pg, PteOf(s, d, pg).(writable := false)), f, Ref(s, f) + 1)
  }

  function SharePages(s: State, d: nat, lo: nat, hi: nat): State
    decreases hi
  {
    if hi <= lo then s else SharePage(SharePages(s, d, lo, hi - 1), d, hi - 1)
  }

  /** `copy_parent` up to the message, into the new directory `d`. */
  function Share(s: State, p: Proc, d: nat): State {
    var s1 := ShareTables(CreateDir(s, d), p.dir, d, StackTables(p).lo, StackTables(p).hi);
    var s2 := SharePages(s1, d, StackPages(p).lo, StackPages(p).hi);
    var s3 := ShareTables(s2, p.dir, d, ImageTables(p).lo, ImageTables(p).hi);
    SharePages(s3, d, ImagePages(p).lo, ImagePages(p).hi)
  }

  /** A private copy of page `pg` in frame `f`, and of its table in frame `t`, for directory `d`:
      what fork does for the message, and a fault for a page in a shared table. */
  function Privatize(s: State, d: nat, pg: nat, f: nat, t: nat): State {
    var src, tab := FrameOf(s, d, pg), TableOf(s, d, pg);
    var ptes := if tab in s.tables then s.tables[tab] else [];
    var s1 := s.(
      data := s.data[f := PageAt(s, src)], home := s.home[f := pg],
      tables := s.tables[t := ptes], slot := s.slot[t := Pdx(pg)],
      refs := s.refs[src := Ref(s, src) - 1][tab := Ref(s, tab) - 1][f := 1][t := 1]);
    SetPte(SetPde(s1, d, Pdx(pg), Table(t)), d, pg, Pte(true, true, f))
  }

  /** The pages a message at `va` may touch, as the kernel reckons them. */
  function MessagePages(va: nat): Span {
    if va == 0 then Span(0, 0)
    else Span(PageDown(va), PageDown(va) + if 0xFFF - va % PG_SIZE < MESSAGE_SIZE then 2 else 1)
  }

  /** The pages from `pg` on, one pair of fresh frames each. */
  function PrivatizeAll(s: State, d: nat, pg: nat, spare: seq<(nat, nat)>): State
    decreases |spare|
  {
    if spare == [] then s
    else PrivatizeAll(Privatize(s, d, pg, spare[0].0, spare[0].1), d, pg + 1, spare[1..])
  }

  function Fork(s: State, parent: nat, child: nat, d: nat, spare: seq<(nat, nat)>): State
    requires parent in s.procs
  {
    var p := s.procs[parent];
    var s1 := Share(s, p, d);
    PrivatizeAll(s1.(procs := s1.procs[child := p.(dir := d)]), d, MessagePages(p.msg).lo, spare)
  }

  // ---------- a write fault, a store ----------

  function MakeWritable(s: State, d: nat, pg: nat): State {
    SetPte(s, d, pg, PteOf(s, d, pg).(writable := true))
  }

  /** A private copy of page `pg` in frame `f`; the table is not shared. */
  function CopyPage(s: State, d: nat, pg: nat, f: nat): State {
    var src := FrameOf(s, d, pg);
    var s1 := s.(data := s.data[f := PageAt(s, src)], home := s.home[f := pg],
                 refs := s.refs[src := Ref(s, src) - 1][f := 1]);
    SetPte(s1, d, pg, Pte(true, true, f))
  }

  /** `do_page_fault`, with `f` and `t` the frames it may allocate. */
  function Resolve(s: State, d: nat, pg: nat, f: nat, t: nat): State {
    if Ref(s, FrameOf(s, d, pg)) == 1 then MakeWritable(s, d, pg)
    else if Ref(s, TableOf(s, d, pg)) == 1 then CopyPage(s, d, pg, f)
    else Privatize(s, d, pg, f, t)
  }

  function Write(s: State, d: nat, va: nat, b: bv8): State {
    var f := FrameOf(s, d, PageDown(va));
    if f in s.data && va % PG_SIZE < |s.data[f]| then s.(data := s.data[f := s.data[f][va % PG_SIZE := b]]) else s
  }

  /** A process stores `b` at `va`, faulting first if the page is not writable. */
  function Store(s: State, pid: nat, va: nat, b: bv8, f: nat, t: nat): State
    requires pid in s.procs
  {
    var d := s.procs[pid].dir;
    var s1 := if PteOf(s, d, PageDown(va)).writable then s else Resolve(s, d, PageDown(va), f, t);
    Write(s1, d, va, b)
  }

  // ---------- exit ----------

  function FreeFrame(s: State, f: nat): State {
    s.(data := s.data - {f}, tables := s.tables - {f}, dirs := s.dirs - {f}, refs := s.refs - {f},
       home := s.home - {f}, slot := s.slot - {f})
  }

  function DropRef(s: State, f: nat): State {
    var s1 := SetRef(s, f, Ref(s, f) - 1);
    if Ref(s, f) - 1 == 0 then FreeFrame(s1, f) else s1
  }

  function DropPage(s: State, d: nat, pg: nat): State {
    DropRef(s, FrameOf(s, d, pg))
  }

  function DropPages(s: State, d: nat, lo: nat, hi: nat): State
    decreases hi
  {
    if hi <= lo then s else DropPage(DropPages(s, d, lo, hi - 1), d, hi - 1)
  }

  function DropTable(s: State, d: nat, i: nat): State {
    var e := Entry(s, d, i);
    SetPde(DropRef(s, if e.Table? then e.frame else 0), d, i, Absent)
  }

  function DropTables(s: State, d: nat, lo: nat, hi: nat): State
    decreases hi
  {
    if hi <= lo then s else DropTable(DropTables(s, d, lo, hi - 1), d, hi - 1)
  }

  /** `free_proc`. */
  function Exit(s: State, pid: nat): State
    requires pid in s.procs
  {
    var p := s.procs[pid];
    var s1 := DropPages(s, p.dir, StackPages(p).lo, StackPages(p).hi);
    var s2 := DropTables(s1, p.dir, StackTables(p).lo, StackTables(p).hi);
    var s3 := DropPages(s2, p.dir, ImagePages(p).lo, ImagePages(p).hi);
    var s4 := DropTables(s3, p.dir, DroppedTables(p).lo, DroppedTables(p).hi);
    FreeFrame(s4, p.dir).(procs := s.procs - {pid})
  }

  // ---------- the invariant ----------

  predicate Maps(s: State, p: Proc, f: nat) {
    Owns(p, Home(s, f)) && FrameOf(s, p.dir, Home(s, f)) == f
  }

  predicate Uses(s: State, p: Proc, t: nat) {
    Fills(p, Slot(s, t)) && Entry(s, p.dir, Slot(s, t)) == Table(t)
  }

  /** The live processes that map frame `f`. */
  function Mappers(s: State, f: nat): set<nat> {
    set q | q in s.procs && Maps(s, s.procs[q], f)
  }

  /** The live processes whose directory points to table `t`. */
  function Users(s: State, t: nat): set<nat> {
    set q | q in s.procs && Uses(s, s.procs[q], t)
  }

  ghost predicate Kinds(s: State) {
    && s.data.Keys !! s.tables.Keys && s.data.Keys !! s.dirs.Keys && s.tables.Keys !! s.dirs.Keys
    && s.refs.Keys == s.data.Keys + s.tables.Keys + s.dirs.Keys
    && s.home.Keys == s.data.Keys && s.slot.Keys == s.tables.Keys
    && (forall f :: f in s.data ==> |s.data[f]| == PG_SIZE)
    && (forall t :: t in s.tables ==> |s.tables[t]| == PTE_PER_PDE)
    && (forall d :: d in s.dirs ==> |s.dirs[d]| == PTE_PER_PDE)
  }

  ghost predicate EntriesOk(s: State, p: Proc) {
    forall i :: Fills(p, i) ==>
      Entry(s, p.dir, i).Table? && Entry(s, p.dir, i).frame in s.tables && Slot(s, Entry(s, p.dir, i).frame) == i
  }

  ghost predicate PagesOk(s: State, p: Proc) {
    forall pg: nat :: Owns(p, pg) ==>
      PteOf(s, p.dir, pg).present && FrameOf(s, p.dir, pg) in s.data && Home(s, FrameOf(s, p.dir, pg)) == pg
  }

  /** What a directory holds besides the tables of its process: the kernel's 4 MB. */
  function OtherEntry(i: int): Pde {
    if i == 512 then Large(0) else Absent
  }

  ghost predicate SpaceOk(s: State, p: Proc) {
    && Layout(p) && p.dir in s.dirs && EntriesOk(s, p) && PagesOk(s, p)
    && forall i :: !Fills(p, i) ==> Entry(s, p.dir, i) == OtherEntry(i)
  }

  /** A data frame is in use while some live process maps it, and its count is their number;
      a table's count is at least the number of directories pointing to it. */
  ghost predicate Counted(s: State) {
    && (forall f {:trigger Mappers(s, f)} :: f in s.data ==> Ref(s, f) == |Mappers(s, f)| && Ref(s, f) > 0)
    && (forall t {:trigger Users(s, t)} :: t in s.tables ==> Ref(s, t) >= |Users(s, t)|)
  }

  /** A writable page is nobody else's. */
  ghost predicate SoleWriters(s: State) {
    forall q, pg: nat :: q in s.procs && Owns(s.procs[q], pg) && PteOf(s, s.procs[q].dir, pg).writable ==>
      Ref(s, FrameOf(s, s.procs[q].dir, pg)) == 1
  }

  ghost predicate DirsApart(s: State) {
    forall q, r :: q in s.procs && r in s.procs && q != r ==> s.procs[q].dir != s.procs[r].dir
  }

  ghost predicate Inv(s: State) {
    && Kinds(s) && DirsApart(s) && Counted(s) && SoleWriters(s)
    && forall q :: q in s.procs ==> SpaceOk(s, s.procs[q])
  }

  // ---------- what a process sees ----------

  function View(s: State, p: Proc): map<nat, Page> {
    map pg: nat | pg < KERN_BASE / PG_SIZE && Owns(p, pg) :: PageAt(s, FrameOf(s, p.dir, pg))
  }

  function Views(s: State): map<nat, map<nat, Page>> {
    map q | q in s.procs :: View(s, s.procs[q])
  }
}
