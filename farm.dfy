/** The backend's in-memory tables (`panels_db`, `sectors_db`) of solar-panel-backend/main.py:
    the records, the one "needs cleaning" predicate every endpoint uses, the identifier formats
    and the per-sector views that the endpoints compute with list comprehensions.

    Both tables are Python dicts that are filled once, in insertion order, and afterwards only
    have their values updated in place. They are therefore modelled as the sequence of their
    values in insertion order (`panels_db.values()`), with keys kept distinct; a key lookup is
    the position of the record carrying that key. */
module Farm {
  import opened Wrappers

  const TotalPanels: nat := 2700
  const AreaSizeKm: nat := 10
  const SectorsPerSide: nat := 9
  /** `SECTORS_PER_SIDE * SECTORS_PER_SIDE`, written out (see ConstantValues). */
  const TotalSectors: nat := 81
  /** `TOTAL_PANELS // TOTAL_SECTORS`, written out (see ConstantValues). */
  const PanelsPerSector: nat := 33
  /** Watts per panel. */
  const PanelCapacity: int := 500
  /** Voltage of a panel at 100 % efficiency. */
  const RatedVoltage: real := 19.5

  /** One value of `panels_db`. Location, installation date, status and the `last_cleaned`
      timestamp are not modelled. `needsCleaningFlag` is the cached `needs_cleaning` key, absent
      until an endpoint writes it. */
  datatype PanelRec = PanelRec(
    panelId: string,
    sectorId: string,
    capacity: int,
    efficiency: real,
    dustLevel: real,
    voltage: real,
    needsCleaningFlag: Option<bool>)

  /** One value of `sectors_db` (the centre coordinates are not modelled). */
  datatype SectorRec = SectorRec(
    sectorId: string,
    row: int,
    col: int,
    panelCount: int,
    totalCapacity: int,
    averageEfficiency: real)

  /** The errors the endpoints end with: `HTTPException(404)`, and an uncaught exception (a
      server error) such as the `ZeroDivisionError` of an empty table. */
  datatype Failure = NotFound(detail: string) | ServerError

  /** The derived constants are what the source computes from the base ones. */
  lemma ConstantValues()
    ensures TotalSectors == SectorsPerSide * SectorsPerSide
    ensures PanelsPerSector == TotalPanels / TotalSectors
  {
    assert 2700 / 81 == 33;
  }

  /** Row-major position of grid cell (row, col), and back. The generator visits the cells in
      this order. */
  function GridIndex(row: nat, col: nat): nat
  {
    9 * row + col
  }

  function GridRow(k: nat): nat
  {
    k / 9
  }

  function GridCol(k: nat): nat
  {
    k % 9
  }

  lemma GridIndexRoundTrip(row: nat, col: nat)
    requires col < SectorsPerSide
    ensures GridRow(GridIndex(row, col)) == row && GridCol(GridIndex(row, col)) == col
  {
  }

  /** Distinct positions of the generation order are distinct grid cells. */
  lemma GridIndexDistinct(i: nat, j: nat)
    requires i != j
    ensures GridRow(i) != GridRow(j) || GridCol(i) != GridCol(j)
  {
  }

  /** The predicate every endpoint and the stream use: dust above 300 or efficiency below 85. */
  predicate NeedsCleaning(dust: real, efficiency: real)
  {
    dust > 300.0 || efficiency < 85.0
  }

  /** More dust or less efficiency never takes a panel off the cleaning list. */
  lemma NeedsCleaningMonotone(dust: real, efficiency: real, dust': real, efficiency': real)
    requires NeedsCleaning(dust, efficiency) && dust <= dust' && efficiency' <= efficiency
    ensures NeedsCleaning(dust', efficiency')
  {
  }

  predicate PanelNeedsCleaning(p: PanelRec)
  {
    NeedsCleaning(p.dustLevel, p.efficiency)
  }

  /** `19.5 * (efficiency / 100)`: the voltage the backend stores with every efficiency. */
  function VoltageAt(efficiency: real): (v: real)
    ensures 0.0 <= efficiency <= 100.0 ==> 0.0 <= v <= RatedVoltage
  {
    RatedVoltage * (efficiency / 100.0)
  }

  lemma VoltageMonotonic(e1: real, e2: real)
    requires e1 <= e2
    ensures VoltageAt(e1) <= VoltageAt(e2)
  {
  }

  // ---------------------------------------------------------------------------------------
  // Random draws, as nondeterministic choices

  /** `random.uniform(lo, hi)`: some value of the closed interval. */
  method Uniform(lo: real, hi: real) returns (x: real)
    requires lo <= hi
    ensures lo <= x <= hi
  {
    assert Within(lo, lo, hi);
    x :| Within(x, lo, hi);
    assert Within(x, lo, hi);
  }

  predicate Within(x: real, lo: real, hi: real)
  {
    lo <= x <= hi
  }

  /** `random.randint(lo, hi)`: some integer of the closed interval. */
  method RandInt(lo: int, hi: int) returns (x: int)
    requires lo <= hi
    ensures lo <= x <= hi
  {
    assert lo <= lo <= hi;
    x :| lo <= x <= hi;
  }

  // ---------------------------------------------------------------------------------------
  // Identifiers

  function DigitChar(d: nat): char
    requires d < 10
  {
    (48 + d) as char
  }

  function Pow10(k: nat): (r: nat)
    ensures r >= 1
  {
    if k == 0 then 1 else 10 * Pow10(k - 1)
  }

  /** The last `width` decimal digits of `n`, zero-padded on the left. */
  function PaddedDecimal(n: nat, width: nat): (s: string)
    ensures |s| == width
  {
    if width == 0 then [] else PaddedDecimal(n / 10, width - 1) + [DigitChar(n % 10)]
  }

  /** Python's `str(n)` for a natural number. */
  function Decimal(n: nat): (s: string)
    ensures 1 <= |s|
    ensures n < 10 ==> s == [DigitChar(n)]
  {
    if n < 10 then [DigitChar(n)] else Decimal(n / 10) + [DigitChar(n % 10)]
  }

  /** Division is determined by quotient and remainder. */
  lemma DivUnique(n: int, d: int, q: int, r: int)
    requires d > 0 && n == d * q + r && 0 <= r < d
    ensures n / d == q
  {
    var q0, r0 := n / d, n % d;
    assert d * (q - q0) == r0 - r;
    if q - q0 >= 1 {
      MulAtLeast(d, q - q0);
    } else if q0 - q >= 1 {
      MulAtLeast(d, q0 - q);
    }
  }

  lemma MulAtLeast(d: int, k: int)
    requires d > 0 && k >= 1
    ensures d * k >= d
  {
  }

  /** `(n // 10) // d == n // (10 * d)`: dropping the last digit and then `k` more is dropping
      `k + 1` digits. */
  lemma DivTen(n: nat, d: nat)
    requires d >= 1
    ensures (n / 10) / d == n / (10 * d)
  {
    var a := n / 10;
    var q, r := a / d, a % d;
    assert a == d * q + r;
    assert n == 10 * a + n % 10;
    assert n == (10 * d) * q + (10 * r + n % 10);
    assert 10 * r + n % 10 < 10 * d;
    DivUnique(n, 10 * d, q, 10 * r + n % 10);
  }

  /** Digit `i` from the right of the padded form is digit `i` of `n`. */
  lemma {:induction false} PaddedDecimalDigits(n: nat, width: nat)
    ensures var s := PaddedDecimal(n, width);
            forall i :: 0 <= i < width ==> s[width - 1 - i] == DigitChar((n / Pow10(i)) % 10)
  {
    if width > 0 {
      var s := PaddedDecimal(n, width);
      var t := PaddedDecimal(n / 10, width - 1);
      assert s == t + [DigitChar(n % 10)];
      PaddedDecimalDigits(n / 10, width - 1);
      forall i | 0 <= i < width
        ensures s[width - 1 - i] == DigitChar((n / Pow10(i)) % 10)
      {
        if i == 0 {
          assert n / Pow10(0) == n;
        } else {
          assert s[width - 1 - i] == t[width - 2 - (i - 1)];
          DivTen(n, Pow10(i - 1));
        }
      }
    }
  }

  /** `f"PNL-{n:04d}"`: at least four digits, zero-padded. */
  function PanelId(n: nat): (s: string)
    ensures |s| >= 5 && s[..4] == "PNL-"
    ensures n < Pow10(4) ==> |s| == 8
  {
    "PNL-" + (if n < 10000 then PaddedDecimal(n, 4) else Decimal(n))
  }

  /** Below 10000 the id is "PNL-" then the four decimal digits of `n`, most significant first. */
  lemma PanelIdDigits(n: nat)
    requires n < Pow10(4)
    ensures var s := PanelId(n);
            forall i :: 0 <= i < 4 ==> s[7 - i] == DigitChar((n / Pow10(i)) % 10)
  {
    PaddedDecimalDigits(n, 4);
    assert PanelId(n) == "PNL-" + PaddedDecimal(n, 4);
  }


  /** `f"{chr(65 + row)}{col + 1}"`, for the grid positions the generator visits. */
  function SectorId(row: nat, col: nat): (s: string)
    requires row < SectorsPerSide && col < SectorsPerSide
    ensures |s| == 2 && s[0] == (65 + row) as char && s[1] == DigitChar(col + 1)
  {
    [(65 + row) as char] + Decimal(col + 1)
  }

  lemma {:induction false} PaddedDecimalInjective(n: nat, m: nat, width: nat)
    requires n < Pow10(width) && m < Pow10(width)
    requires PaddedDecimal(n, width) == PaddedDecimal(m, width)
    ensures n == m
  {
    if width > 0 {
      var s, t := PaddedDecimal(n, width), PaddedDecimal(m, width);
      assert s[width - 1] == DigitChar(n % 10) && t[width - 1] == DigitChar(m % 10);
      assert s[..width - 1] == PaddedDecimal(n / 10, width - 1);
      assert t[..width - 1] == PaddedDecimal(m / 10, width - 1);
      assert n / 10 < Pow10(width - 1) && m / 10 < Pow10(width - 1);
      PaddedDecimalInjective(n / 10, m / 10, width - 1);
    }
  }

  /** Distinct counters below 10000 give distinct panel ids. */
  lemma PanelIdInjective(n: nat, m: nat)
    requires n < 10000 && m < 10000 && n != m
    ensures PanelId(n) != PanelId(m)
  {
    if PanelId(n) == PanelId(m) {
      assert Pow10(4) == 10000;
      assert PanelId(n)[4..] == PaddedDecimal(n, 4);
      assert PanelId(m)[4..] == PaddedDecimal(m, 4);
      PaddedDecimalInjective(n, m, 4);
    }
  }

  /** Distinct grid positions give distinct sector ids. */
  lemma SectorIdInjective(r1: nat, c1: nat, r2: nat, c2: nat)
    requires r1 < SectorsPerSide && c1 < SectorsPerSide
    requires r2 < SectorsPerSide && c2 < SectorsPerSide
    requires SectorId(r1, c1) == SectorId(r2, c2)
    ensures r1 == r2 && c1 == c2
  {
    assert SectorId(r1, c1)[0] == SectorId(r2, c2)[0];
    assert SectorId(r1, c1)[1] == SectorId(r2, c2)[1];
  }

  // ---------------------------------------------------------------------------------------
  // The panel table and its per-sector views

  /** No two records carry the same key: the sequence is the value list of a dict. */
  ghost predicate UniqueIds(panels: seq<PanelRec>)
  {
    forall i, j :: 0 <= i < j < |panels| ==> panels[i].panelId != panels[j].panelId
  }

  /** `panel_id in panels_db`, and where the record sits. */
  function IndexOf(panels: seq<PanelRec>, id: string): (r: Option<nat>)
    ensures r.Some? ==> r.value < |panels| && panels[r.value].panelId == id
    ensures r.None? <==> forall i :: 0 <= i < |panels| ==> panels[i].panelId != id
  {
    if panels == [] then None
    else if panels[|panels| - 1].panelId == id then Some(|panels| - 1)
    else IndexOf(panels[..|panels| - 1], id)
  }

  /** With distinct keys the record carrying `id` is unique, so the lookup finds exactly it. */
  lemma IndexOfUnique(panels: seq<PanelRec>, id: string, i: nat)
    requires UniqueIds(panels) && i < |panels| && panels[i].panelId == id
    ensures IndexOf(panels, id) == Some(i)
  {
  }

  /** `[p for p in panels_db.values() if p["sector_id"] == sid]`. */
  function InSector(panels: seq<PanelRec>, sid: string): (r: seq<PanelRec>)
    ensures |r| <= |panels|
  {
    if panels == [] then []
    else
      var rest := InSector(panels[..|panels| - 1], sid);
      if panels[|panels| - 1].sectorId == sid then rest + [panels[|panels| - 1]] else rest
  }

  /** The sector view holds exactly the panels of that sector. */
  lemma {:induction false} InSectorMembers(panels: seq<PanelRec>, sid: string)
    ensures forall p :: p in InSector(panels, sid) <==> p in panels && p.sectorId == sid
  {
    if panels != [] {
      InSectorMembers(panels[..|panels| - 1], sid);
      assert panels == panels[..|panels| - 1] + [panels[|panels| - 1]];
    }
  }

  /** The view is empty exactly when no panel belongs to the sector. */
  lemma {:induction false} InSectorEmpty(panels: seq<PanelRec>, sid: string)
    ensures InSector(panels, sid) == [] <==> forall i :: 0 <= i < |panels| ==> panels[i].sectorId != sid
  {
    if panels != [] {
      InSectorEmpty(panels[..|panels| - 1], sid);
    }
  }

  /** The view of a concatenation is the concatenation of the views. */
  lemma {:induction false} InSectorConcat(a: seq<PanelRec>, b: seq<PanelRec>, sid: string)
    ensures InSector(a + b, sid) == InSector(a, sid) + InSector(b, sid)
  {
    if b == [] {
      assert a + b == a;
    } else {
      var b', last := b[..|b| - 1], b[|b| - 1];
      assert (a + b)[..|a + b| - 1] == a + b';
      assert (a + b)[|a + b| - 1] == last;
      InSectorConcat(a, b', sid);
    }
  }

  /** One panel is kept exactly when it is in the sector; with `InSectorConcat` this makes the
      filter keep table order. */
  lemma InSectorSingle(p: PanelRec, sid: string)
    ensures InSector([p], sid) == if p.sectorId == sid then [p] else []
  {
    assert [p][..0] == [];
  }

  /** A list of panels all of sector `s0` is its own view of `s0`, and its view of any other
      sector is empty. */
  lemma {:induction false} InSectorUniform(panels: seq<PanelRec>, s0: string, sid: string)
    requires forall i :: 0 <= i < |panels| ==> panels[i].sectorId == s0
    ensures InSector(panels, sid) == if sid == s0 then panels else []
  {
    if panels != [] {
      InSectorUniform(panels[..|panels| - 1], s0, sid);
      assert panels[..|panels| - 1] + [panels[|panels| - 1]] == panels;
    }
  }

  /** `sum(1 for p in panels if p["dust_level"] > 300 or p["current_efficiency"] < 85)`. */
  function NeedingCount(panels: seq<PanelRec>): (n: nat)
    ensures n <= |panels|
  {
    if panels == [] then 0
    else NeedingCount(panels[..|panels| - 1]) + (if PanelNeedsCleaning(panels[|panels| - 1]) then 1 else 0)
  }

  /** The count is zero exactly when no listed panel needs cleaning. */
  lemma {:induction false} NeedingCountZero(panels: seq<PanelRec>)
    ensures NeedingCount(panels) == 0 <==> forall i :: 0 <= i < |panels| ==> !PanelNeedsCleaning(panels[i])
  {
    if panels != [] {
      NeedingCountZero(panels[..|panels| - 1]);
    }
  }

  /** The count is the full length exactly when every listed panel needs cleaning. */
  lemma {:induction false} NeedingCountAll(panels: seq<PanelRec>)
    ensures NeedingCount(panels) == |panels| <==> forall i :: 0 <= i < |panels| ==> PanelNeedsCleaning(panels[i])
  {
    if panels != [] {
      NeedingCountAll(panels[..|panels| - 1]);
    }
  }

  /** `pct` is `part` as a percentage of `n`. */
  predicate PercentOf(pct: real, part: nat, n: nat)
  {
    pct * (n as real) == 100.0 * (part as real)
  }

  /** `(part / n) * 100`, for a part of a non-empty whole, lies in [0, 100] and scales back to
      the part. */
  lemma ShareOf(part: nat, n: nat)
    requires 0 < n && part <= n
    ensures var pct := (part as real / n as real) * 100.0;
            PercentOf(pct, part, n) && 0.0 <= pct <= 100.0
  {
    assert (part as real / n as real) * (n as real) == part as real;
  }

  /** `sum(p["current_efficiency"] for p in panels)`. */
  function SumEfficiency(panels: seq<PanelRec>): real
  {
    if panels == [] then 0.0
    else SumEfficiency(panels[..|panels| - 1]) + panels[|panels| - 1].efficiency
  }

  /** `sum(p["voltage"] * 5.0 for p in panels)`: the power at a presumed current of 5 A. */
  function SumPower(panels: seq<PanelRec>): real
  {
    if panels == [] then 0.0
    else SumPower(panels[..|panels| - 1]) + panels[|panels| - 1].voltage * 5.0
  }

  /** Both sums are additive over concatenation, so they do not depend on how the table is
      split into runs. */
  lemma {:induction false} SumsConcat(a: seq<PanelRec>, b: seq<PanelRec>)
    ensures SumEfficiency(a + b) == SumEfficiency(a) + SumEfficiency(b)
    ensures SumPower(a + b) == SumPower(a) + SumPower(b)
  {
    if b != [] {
      var b0 := b[..|b| - 1];
      assert (a + b)[..|a + b| - 1] == a + b0;
      assert (a + b)[|a + b| - 1] == b[|b| - 1];
      SumsConcat(a, b0);
    } else {
      assert a + b == a;
    }
  }

  /** With every voltage within [0, 19.5], the power lies within [0, 97.5] per panel. */
  lemma {:induction false} SumPowerBounds(panels: seq<PanelRec>)
    requires forall i :: 0 <= i < |panels| ==> 0.0 <= panels[i].voltage <= RatedVoltage
    ensures 0.0 <= SumPower(panels) <= 5.0 * RatedVoltage * (|panels| as real)
  {
    if panels != [] {
      SumPowerBounds(panels[..|panels| - 1]);
      assert (|panels| as real) == (|panels| - 1) as real + 1.0;
    }
  }

  /** `sum(...) / len(panels)` of a non-empty list. */
  function MeanEfficiency(panels: seq<PanelRec>): real
    requires |panels| > 0
  {
    SumEfficiency(panels) / (|panels| as real)
  }

  /** If every listed efficiency lies in [lo, hi], the sum lies between `lo` and `hi` times the
      count. */
  lemma {:induction false} SumEfficiencyBounds(panels: seq<PanelRec>, lo: real, hi: real)
    requires forall i :: 0 <= i < |panels| ==> lo <= panels[i].efficiency <= hi
    ensures lo * (|panels| as real) <= SumEfficiency(panels) <= hi * (|panels| as real)
  {
    if panels != [] {
      SumEfficiencyBounds(panels[..|panels| - 1], lo, hi);
      assert (|panels| as real) == (|panels| - 1) as real + 1.0;
    }
  }

  /** The mean of values in [lo, hi] lies in [lo, hi]. */
  lemma MeanEfficiencyBounds(panels: seq<PanelRec>, lo: real, hi: real)
    requires |panels| > 0
    requires forall i :: 0 <= i < |panels| ==> lo <= panels[i].efficiency <= hi
    ensures lo <= MeanEfficiency(panels) <= hi
  {
    SumEfficiencyBounds(panels, lo, hi);
    var n := |panels| as real;
    assert n > 0.0;
    assert lo * n / n == lo && hi * n / n == hi;
  }

  /** Every element of the view satisfies whatever every element of the table satisfies
      (stated here for the efficiency bounds that the averages need). */
  lemma {:induction false} InSectorEfficiencies(panels: seq<PanelRec>, sid: string, lo: real, hi: real)
    requires forall i :: 0 <= i < |panels| ==> lo <= panels[i].efficiency <= hi
    ensures forall i :: 0 <= i < |InSector(panels, sid)| ==> lo <= InSector(panels, sid)[i].efficiency <= hi
  {
    if panels != [] {
      InSectorEfficiencies(panels[..|panels| - 1], sid, lo, hi);
    }
  }
}
