/** Pages of a 32-bit address space: 1024 to a page table, 1024 tables to a directory. */
module Pages {
  const PG_SIZE: nat := 0x1000
  const PTE_PER_PDE: nat := 1024

  /** A table entry; `frame` is a physical page number. */
  datatype Pte = Pte(present: bool, writable: bool, frame: nat)

  /** A directory entry; `Large` maps 4 MB at physical address `base`. */
  datatype Pde = Absent | Large(base: nat) | Table(frame: nat)

  /** The directory entry and the table entry of page `pg`. */
  function Pdx(pg: nat): nat { pg / PTE_PER_PDE }

  function Ptx(pg: nat): nat { pg % PTE_PER_PDE }

  lemma SamePage(a: nat, b: nat)
    ensures Pdx(a) == Pdx(b) && Ptx(a) == Ptx(b) ==> a == b
    ensures Ptx(b) < PTE_PER_PDE
  {
  }
}
