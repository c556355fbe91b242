/** Mapping a range of pages into one address space, and two-level translation: 32-bit
    paging as in section 4.3 of the Intel Software Developer's Manual, volume 3A. */
module Paging {
  import opened Common
  import opened Pages

  const SPACE: nat := 0x1_0000_0000
  /** Frames of 4 KB in the space. */
  const FRAMES: nat := 0x10_0000

  type Tables = map<nat, seq<Pte>>

  /** Tables of full length, each in one directory entry. */
  ghost predicate Sound(dir: seq<Pde>, tables: Tables) {
    && |dir| == PTE_PER_PDE
    && (forall i :: 0 <= i < |dir| && dir[i].Table? ==> dir[i].frame in tables && |tables[dir[i].frame]| == PTE_PER_PDE)
    && forall i, j :: 0 <= i < j < |dir| && dir[i].Table? && dir[j].Table? ==> dir[i].frame != dir[j].frame
  }

  /** The entry page `pg` is mapped by through a table. */
  function Lookup(dir: seq<Pde>, tables: Tables, pg: nat): Option<Pte> {
    if Pdx(pg) < |dir| && dir[Pdx(pg)].Table? && dir[Pdx(pg)].frame in tables
       && Ptx(pg) < |tables[dir[Pdx(pg)].frame]| && tables[dir[Pdx(pg)].frame][Ptx(pg)].present
    then Some(tables[dir[Pdx(pg)].frame][Ptx(pg)])
    else None
  }

  /** `vir2phy`: NULL without a directory entry; a table entry is read whether present or not. */
  function Vir2Phy(dir: seq<Pde>, tables: Tables, va: nat): nat
    requires Sound(dir, tables) && va < SPACE
  {
    match dir[va / (PG_SIZE * PTE_PER_PDE)]
    case Absent => 0
    case Large(base) => base + va % (PG_SIZE * PTE_PER_PDE)
    case Table(f) => tables[f][va / PG_SIZE % PTE_PER_PDE].frame * PG_SIZE + va % PG_SIZE
  }

  /** Address `va` is mapped, by a 4 MB entry or through a table. */
  predicate Present(dir: seq<Pde>, tables: Tables, va: nat)
    requires |dir| == PTE_PER_PDE && va < SPACE
  {
    dir[va / (PG_SIZE * PTE_PER_PDE)].Large? || Lookup(dir, tables, va / PG_SIZE).Some?
  }

  /** A mapped page translates byte by byte. */
  lemma Translates(dir: seq<Pde>, tables: Tables, va: nat)
    requires Sound(dir, tables) && va < SPACE && Lookup(dir, tables, va / PG_SIZE).Some?
    ensures Vir2Phy(dir, tables, va) == Lookup(dir, tables, va / PG_SIZE).value.frame * PG_SIZE + va % PG_SIZE
  {
  }

  /** A 4 MB entry translates by the low 22 bits of the address: the kernel's, 4 MB from address 0 at
      0x80000000, by taking that off. */
  lemma LargeTranslates(dir: seq<Pde>, tables: Tables, va: nat)
    requires Sound(dir, tables) && va < 0x1_0000_0000 && dir[va / 0x40_0000].Large?
    ensures Vir2Phy(dir, tables, va) == dir[va / 0x40_0000].base + va % 0x40_0000
    ensures 0x8000_0000 <= va < 0x8040_0000 && dir[512] == Large(0) ==> Vir2Phy(dir, tables, va) == va - 0x8000_0000
  {
  }

  /** A new, empty table: nothing else is mapped or unmapped. */
  lemma NewTable(dir: seq<Pde>, tables: Tables, i: nat, f: nat, zero: seq<Pte>)
    requires Sound(dir, tables) && i < |dir| && dir[i].Absent? && f !in tables && |zero| == PTE_PER_PDE
    requires forall j :: 0 <= j < |zero| ==> zero[j] == Pte(false, false, 0)
    ensures Sound(dir[i := Table(f)], tables[f := zero])
    ensures forall pg: nat :: Lookup(dir[i := Table(f)], tables[f := zero], pg) == Lookup(dir, tables, pg)
  {
    hide Pdx, Ptx;
  }

  /** A new table entry maps its page and no other. */
  lemma NewEntry(dir: seq<Pde>, tables: Tables, pg: nat, e: Pte)
    requires Sound(dir, tables) && Pdx(pg) < |dir| && dir[Pdx(pg)].Table? && e.present
    ensures var t := dir[Pdx(pg)].frame; t in tables && Ptx(pg) < |tables[t]|
    ensures var t := dir[Pdx(pg)].frame; var after := tables[t := tables[t][Ptx(pg) := e]];
      && Sound(dir, after)
      && forall x: nat :: Lookup(dir, after, x) == if x == pg then Some(e) else Lookup(dir, tables, x)
  {
    var t := dir[Pdx(pg)].frame;
    var after := tables[t := tables[t][Ptx(pg) := e]];
    forall x: nat ensures Lookup(dir, after, x) == if x == pg then Some(e) else Lookup(dir, tables, x) {
      SamePage(x, pg);
    }
  }

  /** What a range of pages is mapped to: physical address `pa` on. Its offset in the page is not
      masked off, so bit 1 of `pa` is the write bit too. */
  datatype Target = Target(pa: nat, writable: bool) {
    /** The entry of the range's page `n`. */
    function At(n: nat): Pte {
      Pte(true, writable || pa / 2 % 2 == 1, (pa / PG_SIZE + n) % FRAMES)
    }
  }

  /** Page `pg` after pages `lo` to `hi` were mapped: what was mapped stays. */
  function Extended(dir: seq<Pde>, tables: Tables, lo: nat, hi: nat, to: Target, pg: nat): Option<Pte> {
    if Lookup(dir, tables, pg).None? && lo <= pg < hi then Some(to.At(pg - lo)) else Lookup(dir, tables, pg)
  }

  ghost predicate MappedTo(dir: seq<Pde>, tables: Tables, dir': seq<Pde>, tables': Tables,
                           lo: nat, hi: nat, to: Target) {
    forall pg: nat :: Lookup(dir', tables', pg) == Extended(dir, tables, lo, hi, to, pg)
  }

  /** Directory entries stay, 4 MB entries and tables alike, but for the absent ones of pages `lo`
      to `hi` that got a table. */
  ghost predicate DirKept(dir: seq<Pde>, dir': seq<Pde>, lo: nat, hi: nat) {
    && |dir'| == |dir|
    && forall i :: 0 <= i < |dir| && dir'[i] != dir[i] ==>
      dir[i].Absent? && dir'[i].Table? && Pdx(lo) <= i && PTE_PER_PDE * i < hi
  }

  /** The page `map_pages` stops before: it counts `size` from the start of the first page. */
  function PagesEnd(va: nat, size: nat): nat
    requires size > 0 || va >= PG_SIZE
  {
    (va / PG_SIZE * PG_SIZE + size - 1) / PG_SIZE + 1
  }

  lemma ByteMapped(dir: seq<Pde>, tables: Tables, dir': seq<Pde>, tables': Tables,
                   va: nat, size: nat, to: Target, x: nat)
    requires Sound(dir', tables') && size > 0 && va / PG_SIZE <= x / PG_SIZE < PagesEnd(va, size) && x < SPACE
    requires MappedTo(dir, tables, dir', tables', va / PG_SIZE, PagesEnd(va, size), to)
    requires Lookup(dir, tables, x / PG_SIZE).None?
    ensures Vir2Phy(dir', tables', x) == (to.pa / PG_SIZE * PG_SIZE + (x - va / PG_SIZE * PG_SIZE)) % SPACE
  {
    var n := x / PG_SIZE - va / PG_SIZE;
    assert Lookup(dir', tables', x / PG_SIZE) == Some(to.At(n));
    hide Lookup, Vir2Phy, MappedTo, Sound;
    Translates(dir', tables', x);
    Wrapped(to.pa / PG_SIZE + n, x % PG_SIZE);
  }

  lemma ByteWritable(dir: seq<Pde>, tables: Tables, dir': seq<Pde>, tables': Tables,
                     va: nat, size: nat, to: Target, x: nat)
    requires size > 0 && va / PG_SIZE <= x / PG_SIZE < PagesEnd(va, size)
    requires MappedTo(dir, tables, dir', tables', va / PG_SIZE, PagesEnd(va, size), to)
    requires Lookup(dir, tables, x / PG_SIZE).None? && to.pa % PG_SIZE == 0
    ensures Lookup(dir', tables', x / 4096).Some? && Lookup(dir', tables', x / 4096).value.writable == to.writable
  {
    var n := x / PG_SIZE - va / PG_SIZE;
    assert Lookup(dir', tables', x / PG_SIZE) == Some(to.At(n));
    hide Lookup, MappedTo;
    BitOfPage(to.pa);
  }

  lemma BitOfPage(pa: nat)
    requires pa % PG_SIZE == 0
    ensures pa / 2 % 2 == 0
  {
    assert pa / 2 == 2 * (pa / 4);
  }

  /** A byte of a page mapped anew translates to its place from the start of `pa`'s page on, and
      may be written as asked. */
  lemma BytesMapped(dir: seq<Pde>, tables: Tables, dir': seq<Pde>, tables': Tables,
                    va: nat, size: nat, to: Target, x: nat)
    requires Sound(dir', tables') && size > 0 && va / PG_SIZE <= x / PG_SIZE < PagesEnd(va, size) && x < SPACE
    requires MappedTo(dir, tables, dir', tables', va / PG_SIZE, PagesEnd(va, size), to)
    requires Lookup(dir, tables, x / PG_SIZE).None?
    ensures Vir2Phy(dir', tables', x) == (to.pa / PG_SIZE * PG_SIZE + (x - va / PG_SIZE * PG_SIZE)) % SPACE
    ensures va % PG_SIZE == 0 && to.pa % PG_SIZE == 0 ==>
      && Vir2Phy(dir', tables', x) == (to.pa + (x - va)) % 0x1_0000_0000
      && Lookup(dir', tables', x / 4096).Some? && Lookup(dir', tables', x / 4096).value.writable == to.writable
  {
    hide Lookup, Vir2Phy, MappedTo, Sound, PagesEnd;
    ByteMapped(dir, tables, dir', tables', va, size, to, x);
    if to.pa % PG_SIZE == 0 { ByteWritable(dir, tables, dir', tables', va, size, to, x); }
  }

  lemma Wrapped(page: nat, offset: nat)
    requires offset < PG_SIZE
    ensures page % FRAMES * PG_SIZE + offset == (page * PG_SIZE + offset) % SPACE
  {
    var q, r := page / FRAMES, page % FRAMES;
    assert page == q * FRAMES + r;
    assert r <= FRAMES - 1;
    var x := r * PG_SIZE + offset;
    assert x < SPACE;
    assert page * PG_SIZE + offset == q * SPACE + x;
    ModIs(q, x);
  }

  lemma ModIs(q: nat, r: nat)
    requires r < SPACE
    ensures (q * SPACE + r) % SPACE == r
  {
  }

  /** Every byte of the range is mapped just when the size fits behind the offset of `va`:
      where it does not, the page of the last byte is left out. */
  lemma LastPageMapped(dir: seq<Pde>, tables: Tables, dir': seq<Pde>, tables': Tables, va: nat, size: nat, to: Target)
    requires size > 0 && MappedTo(dir, tables, dir', tables', va / PG_SIZE, PagesEnd(va, size), to)
    requires forall pg: nat :: Lookup(dir, tables, pg).None?
    ensures (forall x: nat :: va <= x < va + size ==> Lookup(dir', tables', x / PG_SIZE).Some?)
      <==> va % PG_SIZE + (size - 1) % PG_SIZE < PG_SIZE
  {
    forall x: nat
      ensures Lookup(dir', tables', x / PG_SIZE).Some? <==> va / PG_SIZE <= x / PG_SIZE < PagesEnd(va, size)
    {
    }
    hide Lookup, MappedTo;
    var last := va + size - 1;
    assert last / PG_SIZE < PagesEnd(va, size) <==> va % PG_SIZE + (size - 1) % PG_SIZE < PG_SIZE;
    assert Lookup(dir', tables', last / PG_SIZE).Some? <==> last / PG_SIZE < PagesEnd(va, size);
  }

  /** An address that was mapped translates as before. */
  lemma BytesKept(dir: seq<Pde>, tables: Tables, dir': seq<Pde>, tables': Tables,
                  lo: nat, hi: nat, to: Target, va: nat)
    requires Sound(dir, tables) && Sound(dir', tables') && va < SPACE
    requires MappedTo(dir, tables, dir', tables', lo, hi, to) && DirKept(dir, dir', lo, hi)
    requires Present(dir, tables, va)
    ensures Present(dir', tables', va) && Vir2Phy(dir', tables', va) == Vir2Phy(dir, tables, va)
  {
    if !dir[va / (PG_SIZE * PTE_PER_PDE)].Large? {
      assert Lookup(dir', tables', va / PG_SIZE) == Lookup(dir, tables, va / PG_SIZE);
      hide Lookup, Vir2Phy, MappedTo, Sound;
      Translates(dir, tables, va);
      Translates(dir', tables', va);
    }
  }

  /** One more page of the range, mapped or left as it was. */
  lemma OneMore(dir: seq<Pde>, tables: Tables, d: seq<Pde>, t: Tables, d': seq<Pde>, t': Tables,
                lo: nat, pg: nat, to: Target)
    requires MappedTo(dir, tables, d, t, lo, pg, to) && lo <= pg
    requires forall x: nat ::
      (Lookup(d', t', x) == if x == pg && Lookup(d, t, pg).None? then Some(to.At(pg - lo)) else Lookup(d, t, x))
    ensures MappedTo(dir, tables, d', t', lo, pg + 1, to)
  {
    hide Lookup;
  }

  lemma SameLookups(dir: seq<Pde>, tables: Tables, d: seq<Pde>, t: Tables, d': seq<Pde>, t': Tables,
                    lo: nat, hi: nat, to: Target)
    requires MappedTo(dir, tables, d, t, lo, hi, to)
    requires forall x: nat :: Lookup(d', t', x) == Lookup(d, t, x)
    ensures MappedTo(dir, tables, d', t', lo, hi, to)
  {
    hide Lookup;
  }

  /** One more page leaves the entries of the range and the rest alone. */
  lemma DirMore(dir: seq<Pde>, d: seq<Pde>, d': seq<Pde>, lo: nat, pg: nat)
    requires DirKept(dir, d, lo, pg) && DirKept(d, d', pg, pg + 1) && lo <= pg
    ensures DirKept(dir, d', lo, pg + 1)
  {
  }

  lemma DirSame(dir: seq<Pde>, d: seq<Pde>, d': seq<Pde>, lo: nat, pg: nat)
    requires DirKept(dir, d, lo, pg) && DirKept(d, d', pg, pg) && lo <= pg
    ensures DirKept(dir, d', lo, pg)
  {
  }

  lemma NoLarge(dir: seq<Pde>, d: seq<Pde>, lo: nat, hi: nat, pg: nat)
    requires DirKept(dir, d, lo, hi) && Pdx(pg) < |dir| && !dir[Pdx(pg)].Large?
    ensures !d[Pdx(pg)].Large?
  {
  }

  /** An entry that is absent was. */
  lemma WasAbsent(dir: seq<Pde>, d: seq<Pde>, lo: nat, hi: nat, pg: nat)
    requires DirKept(dir, d, lo, hi) && Pdx(pg) < |dir| && d[Pdx(pg)].Absent?
    ensures pg / 1024 < |dir| && dir[pg / 1024].Absent?
  {
  }

  class PageDir {
    const dir: array<Pde>
    var tables: Tables

    ghost predicate Valid()
      reads this, dir
    {
      Sound(dir[..], tables)
    }

    /** A free frame from the allocator, if it has one. */
    method PageAlloc() returns (f: Option<nat>)
      ensures f.Some? ==> f.value !in tables
    {
      f := None;
      var x: nat := 0;
      ghost var left := tables.Keys;
      while x in tables
        invariant left == set y | y in tables && y >= x
        decreases left
      {
        assert x in left;
        x := x + 1;
        left := set y | y in tables && y >= x;
      }
      if * { f := Some(x); }
    }

    /** The table for page `pg`, made if need be; `ok` is false if there is no memory. */
    method CreatePageTable(pg: nat) returns (ok: bool)
      requires Valid() && Pdx(pg) < dir.Length && !dir[Pdx(pg)].Large?
      modifies this, dir
      ensures Valid() && (ok ==> dir[Pdx(pg)].Table?) && DirKept(old(dir[..]), dir[..], pg, if ok then pg + 1 else pg)
      ensures !ok ==> dir[..] == old(dir[..]) && dir[Pdx(pg)].Absent?
      ensures forall x: nat :: Lookup(dir[..], tables, x) == Lookup(old(dir[..]), old(tables), x)
    {
      if dir[Pdx(pg)].Table? { return true; }
      var f := PageAlloc();
      if f.None? { return false; }
      var zero := seq(PTE_PER_PDE, _ => Pte(false, false, 0));
      NewTable(dir[..], tables, Pdx(pg), f.value, zero);
      ghost var was := dir[..];
      tables := tables[f.value := zero];
      dir[Pdx(pg)] := Table(f.value);
      assert dir[..] == was[Pdx(pg) := Table(f.value)];
      return true;
    }

    /** One turn of the loop of `map_pages`: the entry `e` for page `pg`, if it is not mapped. */
    method MapPage(pg: nat, e: Pte) returns (ok: bool)
      requires Valid() && Pdx(pg) < dir.Length && !dir[Pdx(pg)].Large? && e.present
      modifies this, dir
      ensures Valid() && DirKept(old(dir[..]), dir[..], pg, if ok then pg + 1 else pg)
      ensures !ok ==> dir[..] == old(dir[..]) && dir[Pdx(pg)].Absent?
      ensures ok ==> forall x: nat ::
        (Lookup(dir[..], tables, x)
         == if x == pg && Lookup(old(dir[..]), old(tables), pg).None? then Some(e)
            else Lookup(old(dir[..]), old(tables), x))
      ensures !ok ==> forall x: nat :: Lookup(dir[..], tables, x) == Lookup(old(dir[..]), old(tables), x)
    {
      ok := CreatePageTable(pg);
      if !ok { return; }
      NewEntry(dir[..], tables, pg, e);
      var t := dir[Pdx(pg)].frame;
      if !tables[t][Ptx(pg)].present {
        tables := tables[t := tables[t][Ptx(pg) := e]];
      }
    }

    /** `map_pages` of `size` bytes at `va` to `pa`, where no 4 MB entry is, below the last page
        of the address space; `hi` is the page it got to before memory ran out. */
    method MapPages(va: nat, pa: nat, size: nat, writable: bool) returns (ok: bool, ghost hi: nat)
      requires Valid() && pa < SPACE && (size > 0 || va >= PG_SIZE) && va / PG_SIZE * PG_SIZE + size <= SPACE - PG_SIZE
      requires forall i :: Pdx(va / PG_SIZE) <= i <= Pdx(PagesEnd(va, size) - 1) && i < dir.Length ==> !dir[i].Large?
      modifies this, dir
      ensures Valid() && va / PG_SIZE <= hi <= PagesEnd(va, size) && (ok ==> hi == PagesEnd(va, size))
      ensures MappedTo(old(dir[..]), old(tables), dir[..], tables, va / PG_SIZE, hi, Target(pa, writable))
      ensures DirKept(old(dir[..]), dir[..], va / PG_SIZE, hi)
      ensures !ok ==> hi < PagesEnd(va, size) && hi / 1024 < dir.Length && old(dir[..])[hi / 1024].Absent?
    {
      hide Lookup;
      ghost var lo, d0, t0 := va / PG_SIZE, dir[..], tables;
      ghost var to := Target(pa, writable);
      var v, p := va / PG_SIZE * PG_SIZE, pa;
      var end := (v + size - 1) / PG_SIZE * PG_SIZE;
      hi := lo;
      ok := true;
      LoopTest(va, size, lo);
      ReachedStep(pa, 0);
      while v <= end
        invariant v == hi * PG_SIZE && p == Reached(pa, hi - lo) && lo <= hi <= PagesEnd(va, size)
        invariant Valid()
        invariant DirKept(d0, dir[..], lo, hi)
        invariant MappedTo(d0, t0, dir[..], tables, lo, hi, to)
        decreases PagesEnd(va, size) - hi
      {
        ghost var d1, t1 := dir[..], tables;
        LoopTest(va, size, hi);
        PdxBound(va, size, hi);
        TargetAt(to, hi - lo);
        ReachedStep(pa, hi - lo);
        NoLarge(d0, d1, lo, hi, v / PG_SIZE);
        hide PagesEnd, Reached, MappedTo, DirKept;
        ok := MapPage(v / PG_SIZE, Pte(true, writable || p / 2 % 2 == 1, p / PG_SIZE));
        if !ok {
          SameLookups(d0, t0, d1, t1, dir[..], tables, lo, hi, to);
          DirSame(d0, d1, dir[..], lo, hi);
          WasAbsent(d0, d1, lo, hi, hi);
          return;
        }
        DirMore(d0, d1, dir[..], lo, hi);
        OneMore(d0, t0, d1, t1, dir[..], tables, lo, hi, to);
        hi := hi + 1;
        v, p := v + PG_SIZE, (p + PG_SIZE) % SPACE;
      }
      LoopTest(va, size, hi);
    }
  }

  /** The physical address of the range's page `n`, and the next. */
  function Reached(pa: nat, n: nat): nat { (pa + n * PG_SIZE) % SPACE }

  lemma ReachedStep(pa: nat, n: nat)
    ensures Reached(pa, n + 1) == (Reached(pa, n) + PG_SIZE) % SPACE && (pa < SPACE ==> Reached(pa, 0) == pa)
  {
  }

  lemma OffsetKept(m: nat, o: nat)
    requires o < PG_SIZE
    ensures (m * PG_SIZE + o) / PG_SIZE == m && (m * PG_SIZE + o) / 2 % 2 == o / 2 % 2
  {
    var h, k := o / 2, m * 1024;
    assert (m * PG_SIZE + o) / 2 == k * 2 + h;
    BitKept(k, h);
  }

  lemma BitKept(k: nat, h: nat)
    ensures (k * 2 + h) % 2 == h % 2
  {
  }

  lemma TargetAt(to: Target, n: nat)
    ensures var p := Reached(to.pa, n); to.At(n) == Pte(true, to.writable || p / 2 % 2 == 1, p / PG_SIZE)
  {
    var page, o := to.pa / PG_SIZE, to.pa % PG_SIZE;
    var m := (page + n) % FRAMES;
    assert to.pa + n * PG_SIZE == (page + n) * PG_SIZE + o;
    Wrapped(page + n, o);
    OffsetKept(m, o);
    OffsetKept(page, o);
  }

  /** The loop test, in pages. */
  lemma LoopTest(va: nat, size: nat, hi: nat)
    requires size > 0 || va >= PG_SIZE
    ensures hi * PG_SIZE <= (va / PG_SIZE * PG_SIZE + size - 1) / PG_SIZE * PG_SIZE <==> hi < PagesEnd(va, size)
    ensures va / PG_SIZE <= PagesEnd(va, size) && hi * PG_SIZE / PG_SIZE == hi
  {
  }

  lemma PdxBound(va: nat, size: nat, pg: nat)
    requires (size > 0 || va >= PG_SIZE) && va / PG_SIZE * PG_SIZE + size <= SPACE
    requires va / PG_SIZE <= pg < PagesEnd(va, size)
    ensures Pdx(va / PG_SIZE) <= Pdx(pg) <= Pdx(PagesEnd(va, size) - 1) && Pdx(pg) < PTE_PER_PDE
  {
  }
}
