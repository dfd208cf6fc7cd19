/**
  The two ways of naming a block of the PIO disk: by cylinder, head and sector, and by number.
 */
module IdeAddress {
  import opened Basics
  import opened Ide

  datatype Chs = Chs(cylinder: nat, head: nat, sector: nat)

  // What the description of a drive can say, with no more heads than the register can name.
  predicate Real(g: Geometry)
  {
    g.cylinders < 0x10000 && g.heads <= 16 && g.sectors < 0x100
  }

  predicate Within(a: Chs, g: Geometry)
  {
    a.cylinder < g.cylinders && a.head < g.heads && 1 <= a.sector <= g.sectors
  }

  // The number of a block, in the order cylinder, head, sector.
  function BlockNumber(a: Chs, g: Geometry): (n: nat)
    requires a.sector >= 1
  {
    (a.cylinder * g.heads + a.head) * g.sectors + a.sector - 1
  }

  function Blocks(g: Geometry): (n: nat)
  {
    g.cylinders * g.heads * g.sectors
  }

  // The registers as a driver loads them for drive 0.
  function ByChs(t: Taskfile, a: Chs): (t': Taskfile)
    requires a.cylinder < 0x10000 && a.head < 16 && a.sector < 0x100
  {
    t.(lba1 := a.sector, lba2 := a.cylinder % 256, lba3 := a.cylinder / 256, lba4 := a.head)
  }

  function ByNumber(t: Taskfile, n: nat): (t': Taskfile)
    requires n < 0x1000_0000
  {
    t.(lba1 := n % 256, lba2 := n / 0x100 % 256, lba3 := n / 0x10000 % 256, lba4 := 64 + n / 0x100_0000)
  }

  // ---------- arithmetic ----------

  lemma Below(a: nat, b: nat, m: nat, r: nat)
    requires a < b && r < m
    ensures a * m + r < b * m
  {
    assert (a + 1) * m <= b * m by {
      Monotone(a + 1, b, m);
    }
    assert (a + 1) * m == a * m + m;
  }

  lemma Monotone(a: nat, b: nat, m: nat)
    requires a <= b
    ensures a * m <= b * m
  {
    assert (b - a) * m >= 0;
  }

  lemma DivModUnique(q: nat, r: nat, m: nat)
    requires r < m
    ensures (q * m + r) / m == q && (q * m + r) % m == r
  {
    var x := q * m + r;
    assert x == m * (x / m) + x % m;
    if x / m < q {
      Below(x / m, q, m, x % m);
    } else if x / m > q {
      Below(q, x / m, m, r);
    }
  }

  lemma NumberInRange(a: Chs, g: Geometry)
    requires Within(a, g)
    ensures BlockNumber(a, g) < Blocks(g)
  {
    Below(a.cylinder, g.cylinders, g.heads, a.head);
    Below(a.cylinder * g.heads + a.head, g.cylinders * g.heads, g.sectors, a.sector - 1);
  }

  lemma BlocksFit(g: Geometry)
    requires Real(g)
    ensures Blocks(g) <= 0x1000_0000
  {
    Monotone(g.cylinders, 0x10000, g.heads);
    Monotone(g.cylinders * g.heads, 0x100000, g.sectors);
  }

  // ---------- the registers ----------

  lemma LinearIs(t: Taskfile, g: Geometry, n: nat)
    requires g.lba && n < 0x1000_0000
    ensures Translate(ByNumber(t, n), g) == Some(2 + n)
  {
    assert n / 0x100_0000 < 16;
    assert n == (n / 0x100_0000) * 0x100_0000 + n / 0x10000 % 256 * 0x10000 + n / 0x100 % 256 * 0x100 + n % 256;
  }

  lemma ChsIs(t: Taskfile, g: Geometry, a: Chs)
    requires Real(g) && Within(a, g)
    ensures Translate(ByChs(t, a), g) == Some(2 + BlockNumber(a, g))
  {
    var t' := ByChs(t, a);
    assert t'.lba3 * 0x100 + t'.lba2 == a.cylinder;
    assert t'.lba4 % 16 == a.head;
  }

  /** The cylinder, head and sector of a block name the same block as its number. */
  lemma BothNameTheSameBlock(t: Taskfile, g: Geometry, a: Chs)
    requires Real(g) && g.lba && Within(a, g)
    ensures BlockNumber(a, g) < Blocks(g) <= 0x1000_0000
    ensures Translate(ByChs(t, a), g) == Translate(ByNumber(t, BlockNumber(a, g)), g) == Some(2 + BlockNumber(a, g))
  {
    hide Translate, BlockNumber, Blocks;
    NumberInRange(a, g);
    BlocksFit(g);
    LinearIs(t, g, BlockNumber(a, g));
    ChsIs(t, g, a);
  }

  // The address of a block.
  function Address(n: nat, g: Geometry): (a: Chs)
    requires g.heads > 0 && g.sectors > 0
  {
    Chs(n / g.sectors / g.heads, n / g.sectors % g.heads, n % g.sectors + 1)
  }

  lemma AddressOfNumber(a: Chs, g: Geometry)
    requires Within(a, g)
    ensures Address(BlockNumber(a, g), g) == a
  {
    DivModUnique(a.cylinder * g.heads + a.head, a.sector - 1, g.sectors);
    DivModUnique(a.cylinder, a.head, g.heads);
  }

  lemma DivideBelow(n: nat, m: nat, k: nat)
    requires n < k * m && m > 0
    ensures n / m < k
  {
    assert n == m * (n / m) + n % m;
    if n / m >= k {
      Monotone(k, n / m, m);
    }
  }

  lemma NumberOfAddress(n: nat, g: Geometry)
    requires n < Blocks(g) && g.heads > 0 && g.sectors > 0
    ensures Within(Address(n, g), g) && BlockNumber(Address(n, g), g) == n
  {
    DivideBelow(n, g.sectors, g.cylinders * g.heads);
    DivideBelow(n / g.sectors, g.heads, g.cylinders);
    var q := n / g.sectors;
    assert q == g.heads * (q / g.heads) + q % g.heads;
    assert n == g.sectors * q + n % g.sectors;
  }

  ghost predicate HasAddress(t: Taskfile, g: Geometry, n: nat)
    requires Real(g)
  {
    exists a :: Within(a, g) && Translate(ByChs(t, a), g) == Some(2 + n)
  }

  lemma NoBlocks(g: Geometry)
    requires g.heads == 0 || g.sectors == 0
    ensures Blocks(g) == 0
  {
  }

  /** The addresses of drive 0 are in one-to-one correspondence with its blocks, those from 2 on
      up to the capacity: every block has an address, and no two addresses share one. */
  lemma AddressesAreBlocks(t: Taskfile, g: Geometry)
    requires Real(g)
    ensures forall a :: Within(a, g) ==>
              var b := Translate(ByChs(t, a), g); b.Some? && 2 <= b.value < 2 + Blocks(g)
    ensures forall a, a' :: Within(a, g) && Within(a', g) && Translate(ByChs(t, a), g) == Translate(ByChs(t, a'), g) ==> a == a'
    ensures forall n: nat :: n < Blocks(g) ==> HasAddress(t, g, n)
  {
    hide Translate, BlockNumber, Blocks, Address, ByChs;
    forall a | Within(a, g)
      ensures var b := Translate(ByChs(t, a), g); b.Some? && 2 <= b.value < 2 + Blocks(g)
    {
      ChsIs(t, g, a);
      NumberInRange(a, g);
    }
    forall a, a' | Within(a, g) && Within(a', g) && Translate(ByChs(t, a), g) == Translate(ByChs(t, a'), g)
      ensures a == a'
    {
      ChsIs(t, g, a);
      ChsIs(t, g, a');
      AddressOfNumber(a, g);
      AddressOfNumber(a', g);
    }
    forall n: nat | n < Blocks(g)
      ensures HasAddress(t, g, n)
    {
      if g.heads == 0 || g.sectors == 0 {
        NoBlocks(g);
      } else {
        NumberOfAddress(n, g);
        ChsIs(t, g, Address(n, g));
      }
    }
  }

  /** Sector 0 is the same as sector 1; beyond that an address outside the drive is refused, and
      one inside it is refused when the whole device byte, drive bit and all, is not below the
      number of heads. */
  lemma ChsRefused(t: Taskfile, g: Geometry)
    requires !Linear(t, g)
    ensures Translate(t, g).None? <==>
              t.lba3 * 256 + t.lba2 >= g.cylinders || t.lba4 >= g.heads || (if t.lba1 == 0 then 1 else t.lba1) > g.sectors
    ensures Corrected(t, g) == t.(lba1 := if t.lba1 == 0 then 1 else t.lba1)
    ensures Translate(Corrected(t, g), g) == Translate(t, g)
  {
  }

  // So the second drive never finds a block by cylinder, head and sector.
  lemma SecondDriveRefusesChs(t: Taskfile, g: Geometry)
    requires g.heads <= 16 && !Linear(t, g) && t.lba4 / 16 % 2 == 1
    ensures Translate(t, g).None?
  {
  }
}
