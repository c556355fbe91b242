/** Reading a file through its cluster chain on a FAT32 volume, as in section "FAT Data
    Structure" of the Microsoft FAT32 specification. */
module Fat {
  import opened Arithmetic

  const SECTOR: nat := 512
  const WIDTH: nat := 0x1_0000_0000

  type Byte = b: nat | b < 0x100

  /** `firstData` is the first data sector; `disk` gives the 512 bytes of a sector. */
  datatype Volume = Volume(secPerClus: nat, fatStart: nat, firstData: nat, rootClus: nat, disk: nat -> seq<Byte>)

  ghost predicate Sound(v: Volume) {
    v.secPerClus > 0 && forall s :: |v.disk(s)| == SECTOR
  }

  function BytesPerClus(v: Volume): nat { SECTOR * v.secPerClus }

  /** The number in the chain of the cluster that holds byte `x` of a file, and the place there. */
  function NumberOf(v: Volume, x: nat): nat
    requires Sound(v)
  {
    x / BytesPerClus(v)
  }

  function PlaceOf(v: Volume, x: nat): (r: nat)
    requires Sound(v)
    ensures r < BytesPerClus(v)
  {
    x % BytesPerClus(v)
  }

  function Word(b: seq<Byte>, i: nat): nat
    requires 4 * i + 3 < |b|
  {
    b[4 * i] as nat + 0x100 * b[4 * i + 1] as nat + 0x1_0000 * b[4 * i + 2] as nat + 0x100_0000 * b[4 * i + 3] as nat
  }

  /** The cluster after `c`: the low 28 bits of its entry in the table. */
  function Next(v: Volume, c: nat): nat
    requires Sound(v)
  {
    Word(v.disk(v.fatStart + c / 128), c % 128) % 0x1000_0000
  }

  /** From sector `fatStart` on the disk holds the entries of `table`, four bytes each, lowest first. */
  ghost predicate HoldsTable(v: Volume, table: seq<nat>)
    requires Sound(v)
  {
    forall c :: 0 <= c < |table| ==>
      var b, w, i := v.disk(v.fatStart + c / 128), table[c], c % 128 * 4;
      && w < 0x1_0000_0000 && b[i] == w % 0x100 && b[i + 1] == w / 0x100 % 0x100
      && b[i + 2] == w / 0x1_0000 % 0x100 && b[i + 3] == w / 0x100_0000
  }

  /** The next cluster is the low 28 bits of the entry, whatever the table and wherever it starts. */
  lemma NextReads(v: Volume, table: seq<nat>, c: nat)
    requires Sound(v) && HoldsTable(v, table) && c < |table|
    ensures Next(v, c) == table[c] % 0x1000_0000
  {
    var w := table[c];
    Digits(w);
    assert Word(v.disk(v.fatStart + c / 128), c % 128) == w;
  }

  lemma Digits(w: nat)
    ensures w == w % 0x100 + 0x100 * (w / 0x100 % 0x100) + 0x1_0000 * (w / 0x1_0000 % 0x100)
                 + 0x100_0000 * (w / 0x100_0000)
  {
    var a := w / 0x100;
    var b := a / 0x100;
    assert w / 0x1_0000 == b && w / 0x100_0000 == b / 0x100;
  }

  function ChainAt(v: Volume, c: nat, k: nat): nat
    requires Sound(v)
    decreases k
  {
    if k == 0 then c else Next(v, ChainAt(v, c, k - 1))
  }

  /** The first sector of cluster `c`, as the specification has it: clusters are numbered from 2. */
  function SectorOf(v: Volume, c: nat): nat {
    (v.firstData + (c - 2) * v.secPerClus) % WIDTH
  }

  /** `CLUS2SECTOR`, in 32 bits: clusters are numbered from the root directory's. */
  function Clus2Sector(v: Volume, c: nat): nat {
    (v.firstData + (c - v.rootClus) * v.secPerClus) % WIDTH
  }

  /** The two agree, for every cluster or for none. */
  predicate RootAligned(v: Volume) {
    ((v.rootClus - 2) * v.secPerClus) % WIDTH == 0
  }

  lemma SectorsAgree(v: Volume, c: nat)
    ensures Clus2Sector(v, c) == SectorOf(v, c) <==> RootAligned(v)
  {
    var x, y := v.firstData + (c - v.rootClus) * v.secPerClus, (v.rootClus - 2) * v.secPerClus;
    assert (c - 2) * v.secPerClus == (c - v.rootClus) * v.secPerClus + y;
    SumMod(x, y);
  }

  lemma SumMod(x: int, y: int)
    ensures (x + y) % WIDTH == x % WIDTH <==> y % WIDTH == 0
  {
    var q, r, p, t := x / WIDTH, x % WIDTH, y / WIDTH, y % WIDTH;
    assert x + y == (q + p) * WIDTH + (r + t);
    if r + t < WIDTH { ModOf(q + p, r + t); } else { ModOf(q + p + 1, r + t - WIDTH); }
  }

  lemma ModOf(q: int, r: int)
    requires 0 <= r < WIDTH
    ensures (q * WIDTH + r) % WIDTH == r
  {
  }

  /** Byte `r` of cluster number `q` of the chain from `c`. */
  function ByteAt(v: Volume, c: nat, q: nat, r: nat): Byte
    requires Sound(v)
  {
    v.disk(SectorOf(v, ChainAt(v, c, q)) + r / SECTOR)[r % SECTOR]
  }

  /** Byte `x` of the file that starts at cluster `c`. */
  function FileByte(v: Volume, c: nat, x: nat): Byte
    requires Sound(v)
  {
    ByteAt(v, c, NumberOf(v, x), PlaceOf(v, x))
  }

  function Min(a: nat, b: nat): nat { if a < b then a else b }

  /** How many bytes a read should give: what there is of the file from `offset` on, `size` at most. */
  function Clipped(fileSize: nat, offset: nat, size: nat): nat {
    if offset >= fileSize then 0 else Min(size, fileSize - offset)
  }

  /** How many the code gives, in 32 bits. */
  function Clip32(fileSize: nat, offset: nat, size: nat): nat {
    if (offset + size) % WIDTH > fileSize then (fileSize - offset) % WIDTH else size
  }

  /** The code's clip is right if and only if the offset is in the file, or at its end, and the sum
      with the size does not wrap. */
  lemma ClipExact(fileSize: nat, offset: nat, size: nat)
    requires fileSize < WIDTH && offset < WIDTH && size < WIDTH
    ensures Clip32(fileSize, offset, size) == Clipped(fileSize, offset, size) <==>
      offset <= fileSize && offset + size < WIDTH
  {
    var sum := offset + size;
    assert sum % WIDTH == if sum < WIDTH then sum else sum - WIDTH;
    assert (fileSize - offset) % WIDTH == if offset <= fileSize then fileSize - offset else fileSize - offset + WIDTH;
  }

  /** Where it is wrong the read is not cut off at all, or is made longer than any file. */
  lemma ClipWrong(fileSize: nat, offset: nat, size: nat)
    requires fileSize < WIDTH && offset < WIDTH && size < WIDTH && !(offset <= fileSize && offset + size < WIDTH)
    ensures Clip32(fileSize, offset, size) > Clipped(fileSize, offset, size)
    ensures Clip32(100, 10, 0xFFFF_FFFF) == 0xFFFF_FFFF && Clipped(100, 10, 0xFFFF_FFFF) == 90
  {
    var sum := offset + size;
    assert sum % WIDTH == if sum < WIDTH then sum else sum - WIDTH;
    assert (fileSize - offset) % WIDTH == if offset <= fileSize then fileSize - offset else fileSize - offset + WIDTH;
  }

  /** The bytes up to the first sector boundary. */
  function Head(v: Volume, offset: nat, size: nat): nat
    requires Sound(v)
  {
    var r := PlaceOf(v, offset);
    if r % SECTOR != 0 then Min(SECTOR - r % SECTOR, size) else 0
  }

  /** Byte `r` of cluster number `q`, where the code looks for it. */
  function CodeByte(v: Volume, c: nat, q: nat, r: nat): Byte
    requires Sound(v)
  {
    v.disk(Clus2Sector(v, ChainAt(v, c, q)) + r / SECTOR)[r % SECTOR]
  }

  /** What a read puts in byte `k` of the buffer: up to the first sector boundary it comes
      from the cluster's first sector, whichever sector the offset is in. */
  function ReadByte(v: Volume, c: nat, offset: nat, size: nat, k: nat): Byte
    requires Sound(v)
  {
    if k < Head(v, offset, size) then CodeByte(v, c, NumberOf(v, offset), (PlaceOf(v, offset) + k) % SECTOR)
    else CodeByte(v, c, NumberOf(v, offset + k), PlaceOf(v, offset + k))
  }

  // ---------- arithmetic of positions ----------

  lemma PlaceIs(v: Volume, q: nat, r: nat, x: nat)
    requires Sound(v) && x == q * BytesPerClus(v) + r && r < BytesPerClus(v)
    ensures NumberOf(v, x) == q && PlaceOf(v, x) == r
  {
    Unique(x, BytesPerClus(v), q, r);
  }

  lemma Position(v: Volume, x: nat)
    requires Sound(v)
    ensures x == NumberOf(v, x) * BytesPerClus(v) + PlaceOf(v, x)
  {
    var b := BytesPerClus(v);
    assert x == b * (x / b) + x % b;
  }

  /** Bytes of one sector. */
  lemma InSector(v: Volume, c: nat, q: nat, r: nat, j: nat)
    requires Sound(v) && r + j < BytesPerClus(v) && r % SECTOR + j < SECTOR
    ensures var x := q * BytesPerClus(v) + r + j;
      CodeByte(v, c, NumberOf(v, x), PlaceOf(v, x))
      == v.disk(Clus2Sector(v, ChainAt(v, c, q)) + r / SECTOR)[r % SECTOR + j]
  {
    hide BytesPerClus, ChainAt, Clus2Sector, NumberOf, PlaceOf;
    PlaceIs(v, q, r + j, q * BytesPerClus(v) + r + j);
    SectorSplit(r, j);
  }

  lemma SectorSplit(r: nat, j: nat)
    requires r % SECTOR + j < SECTOR
    ensures (r + j) / SECTOR == r / SECTOR && (r + j) % SECTOR == r % SECTOR + j
  {
  }

  /** Where a position is in its sector. */
  lemma SectorRest(n: nat, r: nat)
    requires r < SECTOR * n
    ensures r + (SECTOR - r % SECTOR) <= SECTOR * n
  {
    assert r / SECTOR < n;
    assert r / SECTOR + 1 <= n;
  }

  // ---------- what a read gives ----------

  lemma CodeIsFile(v: Volume, c: nat, q: nat, r: nat)
    requires Sound(v) && RootAligned(v)
    ensures CodeByte(v, c, q, r) == ByteAt(v, c, q, r)
  {
    SectorsAgree(v, ChainAt(v, c, q));
    hide ChainAt, Clus2Sector, SectorOf;
  }

  lemma HeadByte(v: Volume, c: nat, offset: nat, k: nat)
    requires Sound(v) && PlaceOf(v, offset) + k < SECTOR
    ensures NumberOf(v, offset + k) == NumberOf(v, offset)
    ensures PlaceOf(v, offset + k) == (PlaceOf(v, offset) + k) % SECTOR
  {
    assert BytesPerClus(v) >= SECTOR;
    hide BytesPerClus, NumberOf, PlaceOf;
    Position(v, offset);
    PlaceIs(v, NumberOf(v, offset), PlaceOf(v, offset) + k, offset + k);
  }

  /** At such an offset the head stays in the first sector. */
  lemma HeadSmall(v: Volume, offset: nat, size: nat)
    requires Sound(v) && (offset % SECTOR == 0 || PlaceOf(v, offset) < SECTOR)
    ensures Head(v, offset, size) == 0 || PlaceOf(v, offset) + Head(v, offset, size) <= SECTOR
  {
    OffsetRest(v.secPerClus, offset);
    assert PlaceOf(v, offset) % SECTOR == offset % SECTOR;
    hide PlaceOf;
  }

  /** The buffer gets the file's bytes if the offset is at a sector boundary or in the first sector
      of its cluster, on a volume where the code finds the clusters' sectors. */
  lemma ReadIsSlice(v: Volume, c: nat, offset: nat, size: nat)
    requires Sound(v) && RootAligned(v) && (offset % SECTOR == 0 || PlaceOf(v, offset) < SECTOR)
    ensures forall k: nat :: k < size ==> ReadByte(v, c, offset, size, k) == FileByte(v, c, offset + k)
  {
    hide BytesPerClus, ByteAt, CodeByte, NumberOf, PlaceOf, RootAligned, Head;
    HeadSmall(v, offset, size);
    forall k: nat | k < size ensures ReadByte(v, c, offset, size, k) == FileByte(v, c, offset + k) {
      CodeIsFile(v, c, NumberOf(v, offset + k), PlaceOf(v, offset + k));
      if k < Head(v, offset, size) { HeadByte(v, c, offset, k); }
    }
  }

  /** `chain` is linked through `table`. */
  predicate Linked(table: seq<nat>, chain: seq<nat>) {
    forall i :: 0 <= i < |chain| - 1 ==> chain[i] < |table| && table[chain[i]] % 0x1000_0000 == chain[i + 1]
  }

  lemma {:induction false} ChainIs(v: Volume, table: seq<nat>, chain: seq<nat>, q: nat)
    requires Sound(v) && HoldsTable(v, table) && Linked(table, chain) && q < |chain|
    ensures ChainAt(v, chain[0], q) == chain[q]
    decreases q
  {
    hide HoldsTable, Next;
    if q > 0 {
      ChainIs(v, table, chain, q - 1);
      NextReads(v, table, chain[q - 1]);
    }
  }

  /** A read from a file whose clusters the table links: byte `k` of the buffer is byte `r` of the
      `q`-th of those clusters, in the sector the specification gives it. */
  lemma ReadFromTable(v: Volume, table: seq<nat>, chain: seq<nat>, offset: nat, size: nat, k: nat, q: nat, r: nat)
    requires Sound(v) && RootAligned(v) && HoldsTable(v, table) && Linked(table, chain) && k < size && q < |chain|
    requires offset % SECTOR == 0 || PlaceOf(v, offset) < SECTOR
    requires offset + k == q * (512 * v.secPerClus) + r && r < 512 * v.secPerClus
    ensures ReadByte(v, chain[0], offset, size, k)
      == v.disk((v.firstData + (chain[q] - 2) * v.secPerClus) % 0x1_0000_0000 + r / 512)[r % 512]
  {
    hide HoldsTable, Linked, ReadByte, ChainAt, RootAligned, NumberOf, PlaceOf;
    ReadIsSlice(v, chain[0], offset, size);
    PlaceIs(v, q, r, offset + k);
    ChainIs(v, table, chain, q);
  }

  lemma SameInSector(n: nat, q: nat, r: nat)
    ensures (q * (SECTOR * n) + r) % SECTOR == r % SECTOR
  {
    assert q * (SECTOR * n) == SECTOR * (q * n);
    assert (SECTOR * (q * n) + r) % SECTOR == r % SECTOR;
  }

  // ---------- a volume on which other offsets go wrong ----------

  const END_OF_CHAIN: nat := 0x0FFF_FFFF

  /** The table of a volume with the root directory in cluster 2 and one file, in clusters 3 to `last`. */
  function TableEntry(last: nat, c: nat): (e: nat)
    requires last < END_OF_CHAIN
    ensures e <= END_OF_CHAIN
  {
    if c == 0 then 0x0FFF_FFF8
    else if c <= 2 || c == last then END_OF_CHAIN
    else if c < last then c + 1
    else 0
  }

  /** Byte `i` of a word. */
  function ByteOf(w: nat, i: nat): Byte {
    if i == 0 then w % 0x100 else ByteOf(w / 0x100, i - 1)
  }

  function TableSector(last: nat, s: nat): (b: seq<Byte>)
    requires last < END_OF_CHAIN
    ensures |b| == SECTOR
  {
    seq(SECTOR, i requires 0 <= i < SECTOR => ByteOf(TableEntry(last, 128 * s + i / 4), i % 4))
  }

  function Filled(b: Byte): (s: seq<Byte>)
    ensures |s| == SECTOR && forall i :: 0 <= i < SECTOR ==> s[i] == b
  {
    seq(SECTOR, _ => b)
  }

  /** Sectors the table takes. */
  function TableSize(last: nat): nat { last / 128 + 1 }

  /** Reserved sectors, the table, and clusters of zeros but for one sector. */
  function SectorAt(reserved: nat, last: nat, marked: nat, s: nat): (b: seq<Byte>)
    requires last < END_OF_CHAIN
    ensures |b| == SECTOR
  {
    if reserved <= s < reserved + TableSize(last) then TableSector(last, s - reserved)
    else Filled(if s == marked then 1 else 0)
  }

  ghost function OneFile(reserved: nat, n: nat, last: nat, marked: nat): (v: Volume)
    requires n > 0 && last < END_OF_CHAIN
    ensures Sound(v) && v.secPerClus == n && v.fatStart == reserved && v.firstData == reserved + TableSize(last)
    ensures v.rootClus == 2
  {
    var v := Volume(n, reserved, reserved + TableSize(last), 2, s => SectorAt(reserved, last, marked, s));
    assert forall s: nat :: v.disk(s) == SectorAt(reserved, last, marked, s);
    v
  }

  lemma OneFileDisk(reserved: nat, n: nat, last: nat, marked: nat, s: nat)
    requires n > 0 && last < END_OF_CHAIN
    ensures OneFile(reserved, n, last, marked).disk(s) == SectorAt(reserved, last, marked, s)
  {
  }

  lemma WordOfBytes(w: nat)
    requires w < WIDTH
    ensures w == ByteOf(w, 0) + 0x100 * ByteOf(w, 1) + 0x1_0000 * ByteOf(w, 2) + 0x100_0000 * ByteOf(w, 3)
  {
    var a := w / 0x100;
    var b := a / 0x100;
    var c := b / 0x100;
    assert ByteOf(w, 1) == ByteOf(a, 0) && ByteOf(w, 2) == ByteOf(a, 1) == ByteOf(b, 0);
    assert ByteOf(w, 3) == ByteOf(a, 2) == ByteOf(b, 1) == ByteOf(c, 0);
    assert c < 0x100;
  }

  lemma FourSplit(j: nat, i: nat)
    requires i < 4
    ensures (4 * j + i) / 4 == j && (4 * j + i) % 4 == i
  {
  }

  lemma TableByte(last: nat, s: nat, j: nat, i: nat)
    requires last < END_OF_CHAIN && j < 128 && i < 4
    ensures TableSector(last, s)[4 * j + i] == ByteOf(TableEntry(last, 128 * s + j), i)
  {
    hide ByteOf, TableEntry;
    FourSplit(j, i);
  }

  lemma TableWord(last: nat, s: nat, j: nat)
    requires last < END_OF_CHAIN && j < 128
    ensures Word(TableSector(last, s), j) == TableEntry(last, 128 * s + j)
  {
    hide ByteOf, TableEntry, TableSector;
    WordOfBytes(TableEntry(last, 128 * s + j));
    TableByte(last, s, j, 0);
    TableByte(last, s, j, 1);
    TableByte(last, s, j, 2);
    TableByte(last, s, j, 3);
  }

  lemma TableNext(reserved: nat, n: nat, last: nat, marked: nat, c: nat)
    requires n > 0 && last < END_OF_CHAIN && c <= last
    ensures Next(OneFile(reserved, n, last, marked), c) == TableEntry(last, c)
  {
    hide TableEntry, TableSector, Word, OneFile;
    assert c / 128 < TableSize(last);
    OneFileDisk(reserved, n, last, marked, reserved + c / 128);
    assert SectorAt(reserved, last, marked, reserved + c / 128) == TableSector(last, c / 128);
    TableWord(last, c / 128, c % 128);
    assert 128 * (c / 128) + c % 128 == c;
  }

  /** A file of `m` clusters from cluster `c` on: the chain runs through them and ends. */
  ghost predicate FileAt(v: Volume, c: nat, m: nat)
    requires Sound(v)
  {
    && m > 0 && (forall q: nat :: q < m ==> ChainAt(v, c, q) == c + q)
    && Next(v, ChainAt(v, c, m - 1)) == END_OF_CHAIN
  }

  lemma {:induction false} OneFileChain(reserved: nat, n: nat, last: nat, marked: nat, q: nat)
    requires n > 0 && 3 + q <= last < END_OF_CHAIN
    ensures ChainAt(OneFile(reserved, n, last, marked), 3, q) == 3 + q
    decreases q
  {
    hide OneFile, Next;
    if q > 0 {
      OneFileChain(reserved, n, last, marked, q - 1);
      TableNext(reserved, n, last, marked, 3 + q - 1);
    }
  }

  lemma OneFileAt(reserved: nat, n: nat, last: nat, marked: nat)
    requires n > 0 && 3 <= last < END_OF_CHAIN
    ensures FileAt(OneFile(reserved, n, last, marked), 3, last - 2)
  {
    hide OneFile, Next, ChainAt;
    forall q: nat | q < last - 2 ensures ChainAt(OneFile(reserved, n, last, marked), 3, q) == 3 + q {
      OneFileChain(reserved, n, last, marked, q);
    }
    TableNext(reserved, n, last, marked, last);
  }

  /** How many clusters a file of `size` bytes takes. */
  function Clusters(v: Volume, size: nat): nat
    requires Sound(v) && size > 0
  {
    NumberOf(v, size - 1) + 1
  }

  /** At any other offset there is a volume with a file long enough on which the first byte is wrong. */
  lemma ReadElsewhereWrong(reserved: nat, n: nat, offset: nat, size: nat) returns (v: Volume)
    requires reserved < 0x1_0000 && n > 0 && size > 0 && offset + size < WIDTH && offset + SECTOR * n < WIDTH
    requires offset % SECTOR != 0 && offset % (SECTOR * n) >= SECTOR
    ensures Sound(v) && v.fatStart == reserved && v.secPerClus == n && v.rootClus == 2
    ensures FileAt(v, 3, Clusters(v, offset + size))
    ensures SeekFits(v, offset) && ReadByte(v, 3, offset, size, 0) != FileByte(v, 3, offset)
  {
    hide ReadByte, FileByte, FileAt, SeekFits, Clusters;
    v := MarkedVolume(reserved, n, offset, size);
    SeekFitsIf(v, offset);
  }

  /** The cluster of the offset, the last cluster of the file, and the first sector of the former. */
  lemma MarkPlaces(reserved: nat, n: nat, offset: nat, size: nat) returns (q: nat, last: nat, first: nat)
    requires reserved < 0x1_0000 && n > 0 && size > 0 && offset + size < WIDTH && offset + SECTOR * n < WIDTH
    ensures q == offset / (SECTOR * n) && last == (offset + size - 1) / (SECTOR * n) + 3 < END_OF_CHAIN
    ensures 3 + q <= last && reserved + TableSize(last) <= first < WIDTH
    ensures first == reserved + TableSize(last) + (q + 1) * n
  {
    hide TableSize;
    ClustersFit(reserved, n, offset, size);
    q := offset / (SECTOR * n);
    last := (offset + size - 1) / (SECTOR * n) + 3;
    Grows(q + 1, n);
    first := reserved + TableSize(last) + (q + 1) * n;
  }

  lemma MarkedVolume(reserved: nat, n: nat, offset: nat, size: nat) returns (v: Volume)
    requires reserved < 0x1_0000 && n > 0 && size > 0 && offset + size < WIDTH && offset + SECTOR * n < WIDTH
    requires offset % SECTOR != 0 && offset % (SECTOR * n) >= SECTOR
    ensures Sound(v) && v.fatStart == reserved && v.secPerClus == n && v.rootClus == 2
    ensures FileAt(v, 3, Clusters(v, offset + size))
    ensures ReadByte(v, 3, offset, size, 0) != FileByte(v, 3, offset)
  {
    hide OneFile, ReadByte, FileByte, FileAt, TableSize, BytesPerClus;
    var q, last, first := MarkPlaces(reserved, n, offset, size);
    var marked := first + offset % (SECTOR * n) / SECTOR;
    v := OneFile(reserved, n, last, marked);
    Positions(v, n, offset);
    Positions(v, n, offset + size - 1);
    OffsetRest(n, offset);
    FirstSector(v, q, first);
    hide NumberOf, PlaceOf, SectorOf;
    MarkedWrong(reserved, n, last, marked, offset, size, q, first);
  }

  lemma MarkedWrong(reserved: nat, n: nat, last: nat, marked: nat, offset: nat, size: nat, q: nat, first: nat)
    requires n > 0 && size > 0 && 3 + q <= last < END_OF_CHAIN && reserved + TableSize(last) <= first
    requires var v := OneFile(reserved, n, last, marked);
      && q == NumberOf(v, offset) && last == NumberOf(v, offset + size - 1) + 3 && SectorOf(v, 3 + q) == first
      && marked == first + PlaceOf(v, offset) / SECTOR
      && PlaceOf(v, offset) >= SECTOR && PlaceOf(v, offset) % SECTOR != 0
    ensures var v := OneFile(reserved, n, last, marked);
      FileAt(v, 3, Clusters(v, offset + size)) && ReadByte(v, 3, offset, size, 0) != FileByte(v, 3, offset)
  {
    hide OneFile, SectorOf, ChainAt, ReadByte, FileByte, FileAt, TableSize, SectorAt, Filled, NumberOf, PlaceOf;
    OneFileSector(reserved, n, last, marked, first);
    OneFileSector(reserved, n, last, marked, marked);
    OneFileAt(reserved, n, last, marked);
    OneFileChain(reserved, n, last, marked, q);
    MarkedBytes(OneFile(reserved, n, last, marked), 3, offset, size, first);
  }

  lemma SeekFitsIf(v: Volume, offset: nat)
    requires Sound(v) && offset + BytesPerClus(v) < WIDTH
    ensures SeekFits(v, offset)
  {
    Position(v, offset);
    hide BytesPerClus, NumberOf, PlaceOf;
    Longer(NumberOf(v, offset), BytesPerClus(v));
  }

  lemma Positions(v: Volume, n: nat, x: nat)
    requires Sound(v) && v.secPerClus == n
    ensures NumberOf(v, x) == x / (SECTOR * n) && PlaceOf(v, x) == x % (SECTOR * n)
  {
  }

  lemma OneFileSector(reserved: nat, n: nat, last: nat, marked: nat, s: nat)
    requires n > 0 && last < END_OF_CHAIN && s >= reserved + TableSize(last)
    ensures OneFile(reserved, n, last, marked).disk(s) == Filled(if s == marked then 1 else 0)
  {
    hide OneFile, TableSize;
    OneFileDisk(reserved, n, last, marked, s);
  }

  lemma FirstSector(v: Volume, q: nat, first: nat)
    requires v.firstData + (q + 1) * v.secPerClus == first < WIDTH
    ensures SectorOf(v, 3 + q) == first
  {
    assert (3 + q - 2) * v.secPerClus == (q + 1) * v.secPerClus;
  }

  /** The table and the clusters of a file that can be read fit in 32-bit sector numbers. */
  lemma ClustersFit(reserved: nat, n: nat, offset: nat, size: nat)
    requires reserved < 0x1_0000 && n > 0 && size > 0 && offset + size < WIDTH && offset + SECTOR * n < WIDTH
    ensures var b := SECTOR * n; var q, m := offset / b, (offset + size - 1) / b;
      0 <= q <= m && m + 3 < END_OF_CHAIN && reserved + TableSize(m + 3) + (q + 1) * n < WIDTH
  {
    hide TableSize;
    var b := SECTOR * n;
    var q, m := offset / b, (offset + size - 1) / b;
    DivMono(offset, offset + size - 1, b);
    DivSmall(offset + size - 1, n);
    DivSmall(offset, n);
    Longer(q, n);
    SumFits(m, q * n, n);
  }

  lemma SumFits(m: nat, qn: nat, n: nat)
    requires SECTOR * m < WIDTH && SECTOR * qn < WIDTH && SECTOR * n < WIDTH
    ensures m + 3 < END_OF_CHAIN && 0x1_0000 + TableSize(m + 3) + (qn + n) < WIDTH
  {
  }

  lemma DivMono(x: nat, y: nat, b: nat)
    requires b > 0 && x <= y
    ensures x / b <= y / b
  {
    var p, q := x / b, y / b;
    Division(x, b);
    Division(y, b);
    assert (p - q) * b == b * p - b * q;
    if p > q { Grows(p - q, b); }
  }

  lemma Regroup(n: nat, q: nat)
    ensures (SECTOR * n) * q == SECTOR * (q * n)
  {
  }

  lemma WholeClusters(x: nat, n: nat, q: nat, r: nat)
    requires n > 0 && x == (SECTOR * n) * q + r
    ensures SECTOR * q <= x && SECTOR * (q * n) <= x && q * n >= 0
  {
    Regroup(n, q);
    Grows(q, n);
  }

  /** Quotients by a cluster's bytes, and whole clusters in sectors. */
  lemma DivSmall(x: nat, n: nat)
    requires n > 0
    ensures var q := x / (SECTOR * n); 0 <= q && SECTOR * q <= x && 0 <= SECTOR * (q * n) <= x
  {
    Division(x, SECTOR * n);
    WholeClusters(x, n, x / (SECTOR * n), x % (SECTOR * n));
  }

  lemma OffsetRest(n: nat, offset: nat)
    requires n > 0
    ensures offset % SECTOR == (offset % (SECTOR * n)) % SECTOR
  {
    assert offset == (SECTOR * n) * (offset / (SECTOR * n)) + offset % (SECTOR * n);
    SameInSector(n, offset / (SECTOR * n), offset % (SECTOR * n));
  }

  lemma MarkedBytes(v: Volume, c: nat, offset: nat, size: nat, first: nat)
    requires Sound(v) && RootAligned(v) && size > 0
    requires PlaceOf(v, offset) >= SECTOR && PlaceOf(v, offset) % SECTOR != 0
    requires SectorOf(v, ChainAt(v, c, NumberOf(v, offset))) == first
    requires v.disk(first) == Filled(0) && v.disk(first + PlaceOf(v, offset) / SECTOR) == Filled(1)
    ensures ReadByte(v, c, offset, size, 0) != FileByte(v, c, offset)
  {
    hide SectorOf, ChainAt, NumberOf, PlaceOf, RootAligned, Clus2Sector;
    var r := PlaceOf(v, offset);
    assert Head(v, offset, size) > 0;
    assert (r % SECTOR) / SECTOR == 0;
    assert r % SECTOR < SECTOR;
    SectorsAgree(v, ChainAt(v, c, NumberOf(v, offset)));
  }

  // ---------- reading ----------

  /** The FAT sector is read and the entry's low 28 bits are taken. */
  method GetNextClusInFAT(v: Volume, clus: nat) returns (next: nat)
    requires Sound(v)
    ensures next == Next(v, clus)
    ensures forall table :: HoldsTable(v, table) && clus < |table| ==> next == table[clus] % 0x1000_0000
  {
    var sector := clus / 128;
    var hd := v.disk(v.fatStart + sector);
    next := Word(hd, clus - 128 * sector) % 0x1000_0000;
    assert clus - 128 * sector == clus % 128;
    hide Next, HoldsTable;
    forall table | HoldsTable(v, table) && clus < |table| ensures next == table[clus] % 0x1000_0000 {
      NextReads(v, table, clus);
    }
  }

  /** The first multiple of the cluster size past `offset` is a 32-bit number. */
  predicate SeekFits(v: Volume, offset: nat)
    requires Sound(v)
  {
    (NumberOf(v, offset) + 1) * BytesPerClus(v) < WIDTH
  }

  /** The loop counter, in 32 bits, after `k` more turns. */
  function SeekCounter(v: Volume, k: nat): nat {
    (k + 1) * BytesPerClus(v) % WIDTH
  }

  /** Where the cluster size divides 2^32, the search for the cluster ends if and only if that
      multiple fits: otherwise the counter comes back to 0 and never gets past the offset. */
  lemma SeekEnds(v: Volume, offset: nat)
    requires Sound(v) && offset < WIDTH && WIDTH % BytesPerClus(v) == 0
    ensures (exists k: nat :: SeekCounter(v, k) > offset) <==> SeekFits(v, offset)
  {
    var b, q := BytesPerClus(v), NumberOf(v, offset);
    Position(v, offset);
    hide BytesPerClus, NumberOf, PlaceOf;
    Longer(q, b);
    if SeekFits(v, offset) {
      assert SeekCounter(v, q) > offset;
    } else {
      forall k: nat ensures SeekCounter(v, k) <= offset { CounterStays(k + 1, b, q, offset); }
    }
  }

  /** The multiples of a divisor of 2^32 are, modulo 2^32, at most the last one below it. */
  lemma CounterStays(k: nat, b: nat, q: nat, offset: nat)
    requires b > 0 && WIDTH % b == 0 && q * b <= offset < WIDTH && (q + 1) * b >= WIDTH
    ensures k * b % WIDTH <= offset
  {
    var m := WIDTH / b;
    Division(WIDTH, b);
    assert m * b == WIDTH;
    Ordered(m, q + 1, b);
    Ordered(1, m, b);
    Division(k, m);
    RoundAgain(k, b, m, k / m, k % m);
    Ordered(k % m, q, b);
  }

  lemma RoundAgain(k: nat, b: nat, m: nat, j: nat, r: nat)
    requires b > 0 && m * b == WIDTH && k == m * j + r && r < m
    ensures k * b % WIDTH == r * b
  {
    Ordered(r, m - 1, b);
    Longer(m - 1, b);
    assert k * b == j * (m * b) + r * b by { Spread(j, m, r, b); }
    ModOf(j, r * b);
  }

  lemma Spread(j: nat, m: nat, r: nat, b: nat)
    ensures (m * j + r) * b == j * (m * b) + r * b
  {
    assert (m * j) * b == j * (m * b);
  }

  /** The cluster that holds `offset`, for an offset at which the search ends. */
  method Seek(v: Volume, first: nat, offset: nat) returns (clus: nat)
    requires Sound(v) && SeekFits(v, offset)
    ensures clus == ChainAt(v, first, NumberOf(v, offset))
  {
    hide NumberOf, PlaceOf, BytesPerClus, Next, ChainAt;
    var b := BytesPerClus(v);
    SeekStart(v, offset);
    clus := first;
    ChainMore(v, first, 0);
    var p := b;
    ghost var q: nat, base: nat := 0, 0;
    while p <= offset
      invariant base == q * b && p == base + b && base <= offset && clus == ChainAt(v, first, q)
      decreases offset - p
    {
      SeekStep(q, NumberOf(v, offset), b, offset, base);
      ChainMore(v, first, q);
      clus := GetNextClusInFAT(v, clus);
      q, base := q + 1, base + b;
      p := (p + b) % WIDTH;
    }
    PlaceIs(v, q, offset - base, offset);
  }

  lemma ChainMore(v: Volume, c: nat, q: nat)
    requires Sound(v)
    ensures ChainAt(v, c, 0) == c && ChainAt(v, c, q + 1) == Next(v, ChainAt(v, c, q))
  {
  }

  lemma SeekStart(v: Volume, offset: nat)
    requires Sound(v) && SeekFits(v, offset)
    ensures BytesPerClus(v) > 0 && offset < (NumberOf(v, offset) + 1) * BytesPerClus(v) < WIDTH
  {
    Position(v, offset);
    assert BytesPerClus(v) > 0;
    hide BytesPerClus, NumberOf, PlaceOf;
    Longer(NumberOf(v, offset), BytesPerClus(v));
  }

  /** While the counter is not past the offset, the next multiple fits. */
  lemma SeekStep(q: nat, last: nat, b: nat, offset: nat, base: nat)
    requires b > 0 && base == q * b && base + b <= offset < (last + 1) * b < WIDTH
    ensures base + b == (q + 1) * b && (base + b + b) % WIDTH == base + b + b
  {
    Longer(q, b);
    Ordered(last + 1, q + 1, b);
    Ordered(q + 1, last + 1, b);
    Unwrapped(base + b + b);
  }

  lemma Unwrapped(x: nat)
    requires x < WIDTH
    ensures x % WIDTH == x
  {
  }

  lemma Longer(q: nat, b: nat)
    ensures (q + 1) * b == q * b + b
  {
  }

  /** `HD_drv_read` of `count` bytes of one sector, from byte `from` on, to `buf` at `at`. */
  method ReadSector(v: Volume, sector: nat, from: nat, buf: array<Byte>, at: nat, count: nat)
    requires Sound(v) && from + count <= SECTOR && at + count <= buf.Length
    modifies buf
    ensures forall k :: 0 <= k < buf.Length ==>
      buf[k] == if at <= k < at + count then v.disk(sector)[from + k - at] else old(buf[k])
  {
    var hd := v.disk(sector);
    for i := 0 to count
      invariant forall k :: 0 <= k < buf.Length ==>
        buf[k] == if at <= k < at + i then hd[from + k - at] else old(buf[k])
    {
      buf[at + i] := hd[from + i];
    }
  }

  /** Where a read is: `buf` holds the first `done` bytes, the next is byte `r` of cluster number `q`. */
  ghost predicate At(v: Volume, c: nat, offset: nat, done: nat, clus: nat, q: nat, r: nat) {
    Sound(v) && offset + done == q * BytesPerClus(v) + r && clus == ChainAt(v, c, q)
  }

  /** The sector of byte `r` of cluster number `q` holds byte `k` of a read. */
  lemma ChunkByte(v: Volume, c: nat, offset: nat, size: nat, done: nat, clus: nat, q: nat, r: nat, k: nat)
    requires At(v, c, offset, done, clus, q, r) && Head(v, offset, size) <= done <= k
    requires r % SECTOR + (k - done) < SECTOR && r + (k - done) < BytesPerClus(v)
    ensures v.disk(Clus2Sector(v, clus) + r / SECTOR)[r % SECTOR + (k - done)] == ReadByte(v, c, offset, size, k)
  {
    InSector(v, c, q, r, k - done);
    hide BytesPerClus, FileByte, ByteAt, ChainAt, Clus2Sector, SectorOf, Head;
    assert offset + k == q * BytesPerClus(v) + r + (k - done);
  }

  /** Bytes `done` to `done + n` of a read come from one whole sector. */
  lemma ChunkIs(v: Volume, c: nat, offset: nat, size: nat, done: nat, clus: nat, q: nat, r: nat, n: nat)
    requires At(v, c, offset, done, clus, q, r) && Head(v, offset, size) <= done
    requires r % SECTOR == 0 && n <= SECTOR && r + n <= BytesPerClus(v)
    ensures forall k :: done <= k < done + n ==>
      v.disk(Clus2Sector(v, clus) + r / SECTOR)[k - done] == ReadByte(v, c, offset, size, k)
  {
    hide BytesPerClus, Clus2Sector, ReadByte, At, Head;
    assert Sound(v) by { AtSound(v, c, offset, done, clus, q, r); }
    forall k | done <= k < done + n
      ensures v.disk(Clus2Sector(v, clus) + r / SECTOR)[k - done] == ReadByte(v, c, offset, size, k)
    {
      ChunkByte(v, c, offset, size, done, clus, q, r, k);
    }
  }

  lemma AtSound(v: Volume, c: nat, offset: nat, done: nat, clus: nat, q: nat, r: nat)
    requires At(v, c, offset, done, clus, q, r)
    ensures Sound(v)
  {
  }

  /** At the end of a cluster the read goes on in the next. */
  method NextClus(v: Volume, ghost c: nat, ghost offset: nat, ghost done: nat, clus: nat, ghost q: nat, r: nat)
    returns (clus': nat, r': nat, ghost q': nat)
    requires At(v, c, offset, done, clus, q, r) && r <= BytesPerClus(v)
    ensures At(v, c, offset, done, clus', q', r') && r' < BytesPerClus(v) && r' % SECTOR == r % SECTOR
  {
    clus', r', q' := clus, r, q;
    if r == BytesPerClus(v) {
      clus' := GetNextClusInFAT(v, clus);
      r' := 0;
      q' := q + 1;
      Longer(q, BytesPerClus(v));
    }
  }

  /** The bytes up to the first sector boundary, from the cluster's first sector. */
  method ReadHead(v: Volume, c: nat, offset: nat, clus: nat, r: nat, size: nat, buf: array<Byte>) returns (s: nat)
    requires Sound(v) && size <= buf.Length
    requires r == PlaceOf(v, offset) && clus == ChainAt(v, c, NumberOf(v, offset))
    modifies buf
    ensures s == Head(v, offset, size) <= size
    ensures forall k :: 0 <= k < buf.Length ==> buf[k] == if k < s then ReadByte(v, c, offset, size, k) else old(buf[k])
  {
    s := 0;
    if r % SECTOR != 0 {
      s := Min(SECTOR - r % SECTOR, size);
      ReadSector(v, Clus2Sector(v, clus), r % SECTOR, buf, 0, s);
      HeadBytes(v, c, offset, clus, r, size);
    }
  }

  lemma HeadBytes(v: Volume, c: nat, offset: nat, clus: nat, r: nat, size: nat)
    requires Sound(v)
    requires r == PlaceOf(v, offset) && clus == ChainAt(v, c, NumberOf(v, offset)) && r % SECTOR != 0
    ensures r % SECTOR + Head(v, offset, size) <= SECTOR
    ensures forall k :: 0 <= k < Head(v, offset, size) ==>
      v.disk(Clus2Sector(v, clus))[r % SECTOR + k] == ReadByte(v, c, offset, size, k)
  {
    hide ChainAt, Clus2Sector, BytesPerClus, ReadByte, NumberOf, PlaceOf;
    forall k | 0 <= k < Head(v, offset, size)
      ensures v.disk(Clus2Sector(v, clus))[r % SECTOR + k] == ReadByte(v, c, offset, size, k)
    {
      HeadByteIs(v, c, offset, size, k);
    }
  }

  lemma HeadByteIs(v: Volume, c: nat, offset: nat, size: nat, k: nat)
    requires Sound(v) && k < Head(v, offset, size)
    ensures PlaceOf(v, offset) % SECTOR + k < SECTOR
    ensures ReadByte(v, c, offset, size, k)
      == v.disk(Clus2Sector(v, ChainAt(v, c, NumberOf(v, offset))))[PlaceOf(v, offset) % SECTOR + k]
  {
    hide ChainAt, Clus2Sector, BytesPerClus, NumberOf, PlaceOf;
    SectorSplit(PlaceOf(v, offset), k);
    Within(PlaceOf(v, offset) % SECTOR + k);
  }

  lemma Within(x: nat)
    requires x < SECTOR
    ensures x / SECTOR == 0 && x % SECTOR == x
  {
  }

  /** The rest of a read, from a sector boundary on. */
  method ReadSectors(v: Volume, ghost c: nat, ghost offset: nat, size: nat, buf: array<Byte>, at: nat, first: nat,
                     start: nat, ghost number: nat)
    requires Sound(v) && size <= buf.Length && Head(v, offset, size) <= at < size
    requires At(v, c, offset, at, first, number, start) && start < BytesPerClus(v) && start % SECTOR == 0
    modifies buf
    ensures forall k :: 0 <= k < buf.Length ==>
      buf[k] == if at <= k < size then ReadByte(v, c, offset, size, k) else old(buf[k])
  {
    hide BytesPerClus, At, Clus2Sector, Head, ReadByte;
    var done: nat, clus: nat, r: nat := at, first, start;
    ghost var q := number;
    while size - done > SECTOR
      invariant At(v, c, offset, done, clus, q, r) && r < BytesPerClus(v) && r % SECTOR == 0 && at <= done < size
      invariant forall k :: 0 <= k < buf.Length ==>
        buf[k] == if at <= k < done then ReadByte(v, c, offset, size, k) else old(buf[k])
      decreases size - done
    {
      WholeSector(v, r);
      ReadSector(v, Clus2Sector(v, clus) + r / SECTOR, 0, buf, done, SECTOR);
      ChunkIs(v, c, offset, size, done, clus, q, r, SECTOR);
      AtMore(v, c, offset, done, clus, q, r);
      done := done + SECTOR;
      r := r + SECTOR;
      clus, r, q := NextClus(v, c, offset, done, clus, q, r);
    }
    WholeSector(v, r);
    ReadSector(v, Clus2Sector(v, clus) + r / SECTOR, 0, buf, done, size - done);
    ChunkIs(v, c, offset, size, done, clus, q, r, size - done);
  }

  /** `read_file` of 32-bit numbers, for an offset at which the search for the cluster ends and a
      buffer that takes what the code reads. */
  method ReadFile(v: Volume, c: nat, fileSize: nat, offset: nat, buf: array<Byte>, size: nat) returns (n: nat)
    requires Sound(v) && fileSize < WIDTH && offset < WIDTH && size < WIDTH && SeekFits(v, offset)
    requires Clip32(fileSize, offset, size) <= buf.Length
    modifies buf
    ensures n == Clip32(fileSize, offset, size)
    ensures forall k :: 0 <= k < buf.Length ==> buf[k] == if k < n then ReadByte(v, c, offset, n, k) else old(buf[k])
  {
    hide At, Head, ReadByte;
    hide NumberOf, PlaceOf, BytesPerClus;
    n := if (offset + size) % WIDTH > fileSize then (fileSize - offset) % WIDTH else size;
    ghost var q := NumberOf(v, offset);
    var clus := Seek(v, c, offset);
    var r := PlaceOf(v, offset);
    var done := ReadHead(v, c, offset, clus, r, n, buf);
    HeadEnd(v, c, offset, n, clus);
    r := r + done;
    if n - done == 0 { return; }
    clus, r, q := NextClus(v, c, offset, done, clus, q, r);
    ReadSectors(v, c, offset, n, buf, done, clus, r, q);
  }

  lemma AtMore(v: Volume, c: nat, offset: nat, done: nat, clus: nat, q: nat, r: nat)
    requires At(v, c, offset, done, clus, q, r)
    ensures At(v, c, offset, done + SECTOR, clus, q, r + SECTOR)
  {
  }

  lemma WholeSector(v: Volume, r: nat)
    requires Sound(v) && r < BytesPerClus(v) && r % SECTOR == 0
    ensures r + SECTOR <= BytesPerClus(v) && (r + SECTOR) % SECTOR == 0
  {
    SectorRest(v.secPerClus, r);
  }

  lemma NextBoundary(n: nat, r: nat, s: nat, size: nat)
    requires r < SECTOR * n && s == if r % SECTOR != 0 then Min(SECTOR - r % SECTOR, size) else 0
    ensures r + s <= SECTOR * n && s <= size && (s < size ==> (r + s) % SECTOR == 0)
  {
    SectorRest(n, r);
    if r % SECTOR != 0 && s < size { assert r + s == SECTOR * (r / SECTOR + 1); }
  }

  /** After the first bytes the read is at a sector boundary, or done. */
  lemma HeadEnd(v: Volume, c: nat, offset: nat, size: nat, clus: nat)
    requires Sound(v) && clus == ChainAt(v, c, NumberOf(v, offset))
    ensures var r, s := PlaceOf(v, offset), Head(v, offset, size);
      && r + s <= BytesPerClus(v) && s <= size && (s < size ==> (r + s) % SECTOR == 0)
      && At(v, c, offset, s, clus, NumberOf(v, offset), r + s)
  {
    hide NumberOf, PlaceOf, ChainAt;
    Position(v, offset);
    NextBoundary(v.secPerClus, PlaceOf(v, offset), Head(v, offset, size), size);
    hide BytesPerClus, Head;
  }
}
