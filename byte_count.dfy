/**
 * Installed models as the older scraper-era TUI lists them
 * (internal/tui/get_installed_models.go): the SI byte-count formatter and the
 * list-item accessors.
 */
module InstalledModels {
  import opened GoStrings

  const MaxInt64: int := 0x7FFF_FFFF_FFFF_FFFF
  const MinInt64: int := -0x8000_0000_0000_0000

  /** The SI unit prefixes, one per power of 1000 from 1000^1 on. */
  const Prefixes: string := "kMGTPE"

  function Pow(base: nat, e: nat): (r: nat)
    ensures base > 0 ==> r > 0
  {
    if e == 0 then 1 else base * Pow(base, e - 1)
  }

  lemma {:induction false} PowMonotone(e: nat, f: nat)
    requires e <= f
    ensures Pow(1000, e) <= Pow(1000, f)
    decreases f
  {
    if e < f {
      PowMonotone(e, f - 1);
    }
  }

  /** A positive factor of at least one does not shrink a positive number. */
  lemma MulPos(m: int, t: int)
    requires m > 0 && t >= 1
    ensures m * t >= m
  {
    var u := t - 1;
    assert m * t == m * u + m;
  }

  /** Euclidean division is determined by a quotient and remainder pair. */
  lemma DivUnique(b: int, m: int, q: int, s: int)
    requires m > 0 && b == m * q + s && 0 <= s < m
    ensures b / m == q
  {
    var q0 := b / m;
    var s0 := b % m;
    assert b == m * q0 + s0;
    assert m * q - m * q0 == s0 - s;
    assert m * (q - q0) == s0 - s;
    if q > q0 {
      MulPos(m, q - q0);
    } else if q < q0 {
      MulPos(m, q0 - q);
    }
  }

  /** Integer division by `d` then by `k` is division by `d * k` (both positive). */
  lemma DivDiv(b: nat, d: nat, k: nat)
    requires d > 0 && k > 0
    ensures (b / d) / k == b / (d * k)
  {
    var q := b / d;
    var r := b % d;
    var q2 := q / k;
    var r2 := q % k;
    assert q == k * q2 + r2;
    assert b == d * q + r;
    assert d * q == d * (k * q2) + d * r2;
    assert d * (k * q2) == (d * k) * q2;
    assert b == (d * k) * q2 + (d * r2 + r);
    MulPos(d, k - r2);
    assert d * (k - r2) == d * k - d * r2;
    DivUnique(b, d * k, q2, d * r2 + r);
  }

  /** One more round of the divisor loop: the divisor stays a power of 1000 no larger than `b`. */
  lemma ScaleStep(b: int, div: int, exp: nat)
    requires div == Pow(1000, exp + 1) && 0 < div <= b && b / div >= 1000
    ensures div * 1000 == Pow(1000, exp + 2) && div * 1000 <= b
    ensures (b / div) / 1000 == b / (div * 1000) && b / (div * 1000) >= 1
  {
    DivDiv(b, div, 1000);
    MulPos(div, b / div);
    assert div * (b / div) <= b;
    assert div * 1000 <= div * (b / div) by {
      MulPos(div, b / div - 999);
      assert div * (b / div - 999) == div * (b / div) - div * 999;
    }
  }

  /** A power of 1000 within int64 is at most 1000^6, so its prefix index is in range. */
  lemma PrefixInRange(b: int, exp: nat)
    requires Pow(1000, exp + 1) <= b <= MaxInt64
    ensures exp < |Prefixes|
  {
    if exp >= |Prefixes| {
      PowMonotone(7, exp + 1);
    }
  }

  /**
   * What `ByteCountSI` prints: below 1000 the exact count followed by " B";
   * otherwise the count divided by `div` with one decimal (floating point,
   * not modelled) followed by a space, the prefix `unit` and "B".
   */
  datatype ByteCount = Exact(text: string) | Scaled(div: int, exp: nat, unit: char)

  /**
   * `ByteCountSI`: small counts, negative ones included, are printed exactly;
   * larger ones pick the power of 1000 that leaves a quotient in [1, 1000).
   * Every intermediate divisor stays within int64 and the prefix index within
   * "kMGTPE".
   */
  method ByteCountSI(b: int) returns (r: ByteCount)
    requires MinInt64 <= b <= MaxInt64
    ensures b < 1000 <==> r.Exact?
    ensures r.Exact? ==> r.text == DecimalString(b) + " B"
    ensures r.Scaled? ==> r.div == Pow(1000, r.exp + 1) && 1 <= b / r.div < 1000
    ensures r.Scaled? ==> r.exp < |Prefixes| && r.unit == Prefixes[r.exp]
  {
    if b < 1000 {
      return Exact(DecimalString(b) + " B");
    }
    var div := 1000;
    var exp := 0;
    var n := b / 1000;
    while n >= 1000
      invariant div == Pow(1000, exp + 1) && div <= b
      invariant n == b / div && n >= 1
      decreases n
    {
      ScaleStep(b, div, exp);
      div := div * 1000;
      exp := exp + 1;
      n := n / 1000;
    }
    PrefixInRange(b, exp);
    return Scaled(div, exp, Prefixes[exp]);
  }

  /** An installed model as the daemon lists it; only the name matters to the list. */
  datatype InstalledModel = InstalledModel(name: string, modifiedAt: string, digest: string, size: int)

  /** `Title`: the heading the list shows for the model. */
  function Title(m: InstalledModel): string
  {
    m.name
  }

  /** `FilterValue`: the list filters on the same text it shows as the heading. */
  function FilterValue(m: InstalledModel): (r: string)
    ensures r == Title(m)
  {
    m.name
  }
}
