/**
 * The scoreline probability grid and its reduction to markets: truncation of
 * the two goal distributions at K goals (the last bucket takes the residual
 * mass), the outer product, and the extraction loop that aggregates the grid
 * into result, both-teams-to-score, under/over, exact-score and multigoal
 * markets. The Poisson probabilities themselves are an input.
 */
module ScoreGrid {
  import opened Common
  import Picks

  // ---------------------------------------------------------------------
  // Truncation and outer product

  /** A goal distribution whose last bucket is replaced by max(0, 1 - sum of the others). */
  function Truncated(pmf: seq<real>): (r: seq<real>)
    requires |pmf| >= 1
    ensures |r| == |pmf|
  {
    pmf[..|pmf| - 1] + [Max(0.0, 1.0 - Sum(pmf[..|pmf| - 1]))]
  }

  /**
   * When the first K probabilities are non-negative and add up to at most 1,
   * the truncated vector is a distribution: non-negative, summing to exactly 1,
   * and equal to the input below the last bucket.
   */
  lemma TruncatedIsDistribution(pmf: seq<real>)
    requires |pmf| >= 1
    requires forall i :: 0 <= i < |pmf| - 1 ==> pmf[i] >= 0.0
    requires Sum(pmf[..|pmf| - 1]) <= 1.0
    ensures Sum(Truncated(pmf)) == 1.0
    ensures forall i :: 0 <= i < |pmf| ==> Truncated(pmf)[i] >= 0.0
    ensures forall i :: 0 <= i < |pmf| - 1 ==> Truncated(pmf)[i] == pmf[i]
    ensures Truncated(pmf)[|pmf| - 1] == 1.0 - Sum(pmf[..|pmf| - 1])
  {
    var r := Truncated(pmf);
    assert r[..|r| - 1] == pmf[..|pmf| - 1];
  }

  /** If the first K probabilities already exceed 1, truncation cannot repair it: the total stays above 1. */
  lemma OverfullPrefixStaysOverfull(pmf: seq<real>)
    requires |pmf| >= 1
    requires Sum(pmf[..|pmf| - 1]) > 1.0
    ensures Sum(Truncated(pmf)) == Sum(pmf[..|pmf| - 1]) > 1.0
  {
    var r := Truncated(pmf);
    assert r[..|r| - 1] == pmf[..|pmf| - 1];
  }

  /** The in-place overwrite of the last element of a distribution array. */
  method TruncateTail(a: array<real>)
    requires a.Length >= 1
    modifies a
    ensures a[..] == Truncated(old(a[..]))
  {
    a[a.Length - 1] := Max(0.0, 1.0 - Sum(a[..a.Length - 1]));
  }

  /** The vector s scaled by c. */
  function Scaled(c: real, s: seq<real>): (r: seq<real>)
    ensures |r| == |s| && forall j :: 0 <= j < |s| ==> r[j] == c * s[j]
  {
    seq(|s|, j requires 0 <= j < |s| => c * s[j])
  }

  /** The joint grid of two independent distributions: row i is the away distribution scaled by home[i]. */
  function Outer(home: seq<real>, away: seq<real>): (g: seq<seq<real>>)
    ensures |g| == |home| && forall i :: 0 <= i < |g| ==> g[i] == Scaled(home[i], away)
  {
    seq(|home|, i requires 0 <= i < |home| => Scaled(home[i], away))
  }

  predicate IsGrid(g: seq<seq<real>>, k: nat)
  {
    |g| == k + 1 && forall i :: 0 <= i < |g| ==> |g[i]| == k + 1
  }

  predicate NonNegativeGrid(g: seq<seq<real>>)
  {
    forall i, j :: 0 <= i < |g| && 0 <= j < |g[i]| ==> g[i][j] >= 0.0
  }

  /** The probability grid of a fixture from the two goal distributions for 0..k goals. */
  method Matrix(pmfHome: seq<real>, pmfAway: seq<real>, k: nat) returns (g: seq<seq<real>>)
    requires |pmfHome| == k + 1 && |pmfAway| == k + 1
    ensures g == Outer(Truncated(pmfHome), Truncated(pmfAway))
    ensures IsGrid(g, k)
  {
    var home := new real[k + 1](i requires 0 <= i < k + 1 => pmfHome[i]);
    var away := new real[k + 1](i requires 0 <= i < k + 1 => pmfAway[i]);
    assert home[..] == pmfHome && away[..] == pmfAway;
    TruncateTail(home);
    TruncateTail(away);
    g := Outer(home[..], away[..]);
  }

  lemma {:induction false} SumScaled(c: real, s: seq<real>)
    ensures Sum(Scaled(c, s)) == c * Sum(s)
  {
    if s != [] {
      var n := |s|;
      ScaledFront(c, s);
      SumScaled(c, s[..n - 1]);
      Distribute(c, Sum(s[..n - 1]), s[n - 1]);
    }
  }

  /** Dropping the last entry commutes with scaling. */
  lemma ScaledFront(c: real, s: seq<real>)
    requires s != []
    ensures Scaled(c, s)[..|s| - 1] == Scaled(c, s[..|s| - 1])
  {
    var t, u := Scaled(c, s)[..|s| - 1], Scaled(c, s[..|s| - 1]);
    forall j | 0 <= j < |s| - 1 ensures t[j] == u[j] {
    }
  }

  lemma Distribute(c: real, a: real, b: real)
    ensures c * a + c * b == c * (a + b)
  {
  }

  /** The mass of the first i rows of a grid. */
  function RowsMass(g: seq<seq<real>>, i: nat): real
    requires i <= |g|
  {
    if i == 0 then 0.0 else RowsMass(g, i - 1) + Sum(g[i - 1])
  }

  lemma {:induction false} OuterRowsMass(home: seq<real>, away: seq<real>, i: nat)
    requires i <= |home| && Sum(away) == 1.0
    ensures RowsMass(Outer(home, away), i) == Sum(home[..i])
  {
    if i > 0 {
      var g := Outer(home, away);
      OuterRowsMass(home, away, i - 1);
      SumScaled(home[i - 1], away);
      assert home[..i][..i - 1] == home[..i - 1];
      assert Sum(g[i - 1]) == home[i - 1];
    }
  }

  /** Against a distribution of away goals, the grid's total mass is the mass of the home distribution. */
  lemma OuterMass(home: seq<real>, away: seq<real>)
    requires Sum(away) == 1.0
    ensures RowsMass(Outer(home, away), |home|) == Sum(home)
  {
    OuterRowsMass(home, away, |home|);
    assert home[..|home|] == home;
  }

  /**
   * Built from two distributions whose first k probabilities are
   * non-negative and sum to at most 1, the grid is non-negative and sums to 1.
   */
  lemma GridIsDistribution(pmfHome: seq<real>, pmfAway: seq<real>, k: nat)
    requires |pmfHome| == k + 1 && |pmfAway| == k + 1
    requires forall i :: 0 <= i < k ==> pmfHome[i] >= 0.0 && pmfAway[i] >= 0.0
    requires Sum(pmfHome[..k]) <= 1.0 && Sum(pmfAway[..k]) <= 1.0
    ensures var g := Outer(Truncated(pmfHome), Truncated(pmfAway));
      NonNegativeGrid(g) && RowsMass(g, k + 1) == 1.0
  {
    var h, a := Truncated(pmfHome), Truncated(pmfAway);
    TruncatedIsDistribution(pmfHome);
    TruncatedIsDistribution(pmfAway);
    OuterMass(h, a);
    OuterNonNegative(h, a);
  }

  lemma OuterNonNegative(home: seq<real>, away: seq<real>)
    requires forall i :: 0 <= i < |home| ==> home[i] >= 0.0
    requires forall j :: 0 <= j < |away| ==> away[j] >= 0.0
    ensures NonNegativeGrid(Outer(home, away))
  {
    var g := Outer(home, away);
    forall i, j | 0 <= i < |g| && 0 <= j < |g[i]| ensures g[i][j] >= 0.0 {
      var row := Scaled(home[i], away);
      assert g[i] == row;
      MulNonNegative(home[i], away[j]);
      assert row[j] == home[i] * away[j];
    }
  }

  // ---------------------------------------------------------------------
  // Aggregation

  /** One exact scoreline with its probability. */
  datatype Scoreline = Scoreline(home: nat, away: nat, prob: real)

  /** Cells below this probability are skipped unless they lie in the last row or column. */
  const Negligible: real := 0.00001

  predicate Skipped(g: seq<seq<real>>, k: nat, i: nat, j: nat)
    requires IsGrid(g, k) && i <= k && j <= k
  {
    g[i][j] < Negligible && !(i == k || j == k)
  }

  /** The kept cells (i, c) of row i with c < j, in column order. */
  function RowKept(g: seq<seq<real>>, k: nat, i: nat, j: nat): seq<Scoreline>
    requires IsGrid(g, k) && i <= k && j <= k + 1
  {
    if j == 0 then []
    else RowKept(g, k, i, j - 1) + (if Skipped(g, k, i, j - 1) then [] else [Scoreline(i, j - 1, g[i][j - 1])])
  }

  /** The kept cells of the first i rows, in row-major order: the extraction loop's list of scorelines. */
  function Kept(g: seq<seq<real>>, k: nat, i: nat): seq<Scoreline>
    requires IsGrid(g, k) && i <= k + 1
  {
    if i == 0 then [] else Kept(g, k, i - 1) + RowKept(g, k, i - 1, k + 1)
  }

  /** The events the markets aggregate. */
  datatype Event = Any | HomeWin | Draw | AwayWin | BothScore | NotBoth | Above(line: real) | AtMost(line: real) | TotalIs(n: nat)

  predicate Holds(e: Event, c: Scoreline)
  {
    match e
    case Any => true
    case HomeWin => c.home > c.away
    case Draw => c.home == c.away
    case AwayWin => c.home < c.away
    case BothScore => c.home > 0 && c.away > 0
    case NotBoth => !(c.home > 0 && c.away > 0)
    case Above(line) => (c.home + c.away) as real > line
    case AtMost(line) => (c.home + c.away) as real <= line
    case TotalIs(n) => c.home + c.away == n
  }

  /** The probability of an event over a list of scorelines. */
  function Mass(cells: seq<Scoreline>, e: Event): real
  {
    if cells == [] then 0.0
    else Mass(cells[..|cells| - 1], e) + (if Holds(e, cells[|cells| - 1]) then cells[|cells| - 1].prob else 0.0)
  }

  lemma MassPush(cells: seq<Scoreline>, c: Scoreline, e: Event)
    ensures Mass(cells + [c], e) == Mass(cells, e) + (if Holds(e, c) then c.prob else 0.0)
  {
    assert (cells + [c])[..|cells|] == cells;
  }

  lemma {:induction false} MassAppend(a: seq<Scoreline>, b: seq<Scoreline>, e: Event)
    ensures Mass(a + b, e) == Mass(a, e) + Mass(b, e)
  {
    if b == [] {
      assert a + b == a;
    } else {
      assert (a + b)[..|a + b| - 1] == a + b[..|b| - 1];
      MassAppend(a, b[..|b| - 1], e);
    }
  }

  /** The kept cells of the first i rows followed by those of row i before column j. */
  function KeptUpTo(g: seq<seq<real>>, k: nat, i: nat, j: nat): seq<Scoreline>
    requires IsGrid(g, k) && i <= k && j <= k + 1
  {
    Kept(g, k, i) + RowKept(g, k, i, j)
  }

  /** Visiting cell (i, j) lists it after the cells before it, unless it is skipped. */
  lemma KeptUpToStep(g: seq<seq<real>>, k: nat, i: nat, j: nat)
    requires IsGrid(g, k) && i <= k && j <= k
    ensures KeptUpTo(g, k, i, j + 1) ==
      KeptUpTo(g, k, i, j) + (if Skipped(g, k, i, j) then [] else [Scoreline(i, j, g[i][j])])
  {
    var row := RowKept(g, k, i, j);
    var cell := if Skipped(g, k, i, j) then [] else [Scoreline(i, j, g[i][j])];
    assert Kept(g, k, i) + (row + cell) == (Kept(g, k, i) + row) + cell;
  }

  /** The five running masses of the extraction loop, over the cells listed so far. */
  predicate Sums(cells: seq<Scoreline>, p1: real, px: real, p2: real, pGg: real, pNg: real)
  {
    && p1 == Mass(cells, HomeWin) && px == Mass(cells, Draw) && p2 == Mass(cells, AwayWin)
    && pGg == Mass(cells, BothScore) && pNg == Mass(cells, NotBoth)
  }

  /** Listing one more cell adds its probability to exactly the masses of the events it satisfies. */
  lemma SumsPush(cells: seq<Scoreline>, c: Scoreline, p1: real, px: real, p2: real, pGg: real, pNg: real)
    requires Sums(cells, p1, px, p2, pGg, pNg)
    ensures Sums(cells + [c],
                 p1 + (if c.home > c.away then c.prob else 0.0),
                 px + (if c.home == c.away then c.prob else 0.0),
                 p2 + (if c.home < c.away then c.prob else 0.0),
                 pGg + (if c.home > 0 && c.away > 0 then c.prob else 0.0),
                 pNg + (if c.home > 0 && c.away > 0 then 0.0 else c.prob))
  {
    MassPush(cells, c, HomeWin);
    MassPush(cells, c, Draw);
    MassPush(cells, c, AwayWin);
    MassPush(cells, c, BothScore);
    MassPush(cells, c, NotBoth);
  }

  /**
   * The nested loop over the grid: sums the kept cells into home win, draw,
   * away win, both-score and not-both-score masses, and lists the kept cells.
   */
  method Aggregate(g: seq<seq<real>>, k: nat) returns (cells: seq<Scoreline>, p1: real, px: real, p2: real, pGg: real, pNg: real)
    requires IsGrid(g, k)
    ensures cells == Kept(g, k, k + 1)
    ensures p1 == Mass(cells, HomeWin) && px == Mass(cells, Draw) && p2 == Mass(cells, AwayWin)
    ensures pGg == Mass(cells, BothScore) && pNg == Mass(cells, NotBoth)
  {
    cells := [];
    p1, px, p2, pGg, pNg := 0.0, 0.0, 0.0, 0.0, 0.0;
    var i := 0;
    while i <= k
      invariant 0 <= i <= k + 1
      invariant cells == Kept(g, k, i)
      invariant Sums(cells, p1, px, p2, pGg, pNg)
    {
      cells, p1, px, p2, pGg, pNg := ScanRow(g, k, i, cells, p1, px, p2, pGg, pNg);
      i := i + 1;
    }
  }

  /** The inner loop of the aggregation: row i's kept cells, appended and summed in column order. */
  method ScanRow(g: seq<seq<real>>, k: nat, i: nat, cells0: seq<Scoreline>, p10: real, px0: real, p20: real, pGg0: real, pNg0: real)
    returns (cells: seq<Scoreline>, p1: real, px: real, p2: real, pGg: real, pNg: real)
    requires IsGrid(g, k) && i <= k
    requires cells0 == Kept(g, k, i) && Sums(cells0, p10, px0, p20, pGg0, pNg0)
    ensures cells == Kept(g, k, i + 1) && Sums(cells, p1, px, p2, pGg, pNg)
  {
    cells, p1, px, p2, pGg, pNg := cells0, p10, px0, p20, pGg0, pNg0;
    var j := 0;
    assert RowKept(g, k, i, 0) == [];
    while j <= k
      invariant 0 <= j <= k + 1
      invariant cells == KeptUpTo(g, k, i, j)
      invariant Sums(cells, p1, px, p2, pGg, pNg)
    {
      cells, p1, px, p2, pGg, pNg := Visit(g, k, i, j, cells, p1, px, p2, pGg, pNg);
      j := j + 1;
    }
  }

  /** The body of the inner loop: cell (i, j) is skipped when negligible and off the edge, else listed and counted. */
  method Visit(g: seq<seq<real>>, k: nat, i: nat, j: nat, cells0: seq<Scoreline>, p10: real, px0: real, p20: real, pGg0: real, pNg0: real)
    returns (cells: seq<Scoreline>, p1: real, px: real, p2: real, pGg: real, pNg: real)
    requires IsGrid(g, k) && i <= k && j <= k
    requires cells0 == KeptUpTo(g, k, i, j) && Sums(cells0, p10, px0, p20, pGg0, pNg0)
    ensures cells == KeptUpTo(g, k, i, j + 1) && Sums(cells, p1, px, p2, pGg, pNg)
  {
    cells, p1, px, p2, pGg, pNg := cells0, p10, px0, p20, pGg0, pNg0;
    var prob := g[i][j];
    KeptUpToStep(g, k, i, j);
    if !(prob < Negligible && !(i == k || j == k)) {
      var c := Scoreline(i, j, prob);
      SumsPush(cells, c, p1, px, p2, pGg, pNg);
      if i > j { p1 := p1 + prob; }
      else if i < j { p2 := p2 + prob; }
      else { px := px + prob; }
      if i > 0 && j > 0 { pGg := pGg + prob; }
      else { pNg := pNg + prob; }
      cells := cells + [c];
    }
  }

  /** Home win, draw and away win partition the kept mass, and so do both-score and not-both-score. */
  lemma {:induction false} ResultsPartition(cells: seq<Scoreline>)
    ensures Mass(cells, HomeWin) + Mass(cells, Draw) + Mass(cells, AwayWin) == Mass(cells, Any)
    ensures Mass(cells, BothScore) + Mass(cells, NotBoth) == Mass(cells, Any)
  {
    if cells != [] {
      ResultsPartition(cells[..|cells| - 1]);
    }
  }

  /** At every line, over and under partition the kept mass. */
  lemma {:induction false} LinePartition(cells: seq<Scoreline>, line: real)
    ensures Mass(cells, Above(line)) + Mass(cells, AtMost(line)) == Mass(cells, Any)
  {
    if cells != [] {
      LinePartition(cells[..|cells| - 1], line);
    }
  }

  /** How many cells of row i below column j the skip rule can drop. */
  function SkipBound(k: nat, i: nat, j: nat): nat
  {
    if i < k then (if j < k then j else k) else 0
  }

  /** How many cells of the first i rows the skip rule can drop. */
  function KeptBound(k: nat, i: nat): nat
  {
    if i == 0 then 0 else KeptBound(k, i - 1) + SkipBound(k, i - 1, k + 1)
  }

  lemma {:induction false} KeptBoundValue(k: nat, i: nat)
    requires i <= k + 1
    ensures KeptBound(k, i) == (if i < k then i else k) * k
  {
    if i > 0 {
      KeptBoundValue(k, i - 1);
    }
  }

  /** Two bracketed differences add up to a bracketed difference. */
  lemma Bracketed(x1: real, y1: real, b1: real, x2: real, y2: real, b2: real, b: real)
    requires 0.0 <= x1 - y1 <= b1 && 0.0 <= x2 - y2 <= b2 && b1 + b2 <= b
    ensures 0.0 <= (x1 + x2) - (y1 + y2) <= b
  {
  }

  /** A count of skipped cells, as probability mass. */
  lemma Scale(a: nat, b: nat, c: nat)
    requires a + b <= c
    ensures a as real * Negligible + b as real * Negligible <= c as real * Negligible
  {
  }

  lemma {:induction false} RowKeptMass(g: seq<seq<real>>, k: nat, i: nat, j: nat)
    requires IsGrid(g, k) && NonNegativeGrid(g) && i <= k && j <= k + 1
    ensures 0.0 <= Sum(g[i][..j]) - Mass(RowKept(g, k, i, j), Any) <= SkipBound(k, i, j) as real * Negligible
  {
    if j > 0 {
      RowKeptMass(g, k, i, j - 1);
      assert g[i][..j][..j - 1] == g[i][..j - 1];
      var p := g[i][j - 1];
      var tail := if Skipped(g, k, i, j - 1) then [] else [Scoreline(i, j - 1, p)];
      MassAppend(RowKept(g, k, i, j - 1), tail, Any);
      var lost: nat := if Skipped(g, k, i, j - 1) then 1 else 0;
      assert 0.0 <= p - Mass(tail, Any) <= lost as real * Negligible;
      Scale(SkipBound(k, i, j - 1), lost, SkipBound(k, i, j));
      Bracketed(Sum(g[i][..j - 1]), Mass(RowKept(g, k, i, j - 1), Any), SkipBound(k, i, j - 1) as real * Negligible,
                p, Mass(tail, Any), lost as real * Negligible, SkipBound(k, i, j) as real * Negligible);
    }
  }

  lemma {:induction false} KeptMass(g: seq<seq<real>>, k: nat, i: nat)
    requires IsGrid(g, k) && NonNegativeGrid(g) && i <= k + 1
    ensures 0.0 <= RowsMass(g, i) - Mass(Kept(g, k, i), Any) <= KeptBound(k, i) as real * Negligible
  {
    if i > 0 {
      var before, row := Kept(g, k, i - 1), RowKept(g, k, i - 1, k + 1);
      KeptMass(g, k, i - 1);
      RowKeptMass(g, k, i - 1, k + 1);
      assert g[i - 1][..k + 1] == g[i - 1];
      var x2 := Sum(g[i - 1]);
      assert 0.0 <= x2 - Mass(row, Any) <= SkipBound(k, i - 1, k + 1) as real * Negligible;
      assert RowsMass(g, i) == RowsMass(g, i - 1) + x2;
      assert Kept(g, k, i) == before + row;
      MassAppend(before, row, Any);
      Scale(KeptBound(k, i - 1), SkipBound(k, i - 1, k + 1), KeptBound(k, i));
      Bracketed(RowsMass(g, i - 1), Mass(before, Any), KeptBound(k, i - 1) as real * Negligible,
                x2, Mass(row, Any), SkipBound(k, i - 1, k + 1) as real * Negligible,
                KeptBound(k, i) as real * Negligible);
    }
  }

  /**
   * On the grid of a fixture, the extracted result probabilities add up to
   * between 1 - k*k*0.00001 and 1: only the skipped cells outside the last
   * row and column are lost.
   */
  lemma ExtractedMassNearOne(pmfHome: seq<real>, pmfAway: seq<real>, k: nat)
    requires |pmfHome| == k + 1 && |pmfAway| == k + 1
    requires forall i :: 0 <= i < k ==> pmfHome[i] >= 0.0 && pmfAway[i] >= 0.0
    requires Sum(pmfHome[..k]) <= 1.0 && Sum(pmfAway[..k]) <= 1.0
    ensures var cells := Kept(Outer(Truncated(pmfHome), Truncated(pmfAway)), k, k + 1);
      var total := Mass(cells, HomeWin) + Mass(cells, Draw) + Mass(cells, AwayWin);
      && 1.0 - (k * k) as real * Negligible <= total <= 1.0
      && Mass(cells, BothScore) + Mass(cells, NotBoth) == total
  {
    var g := Outer(Truncated(pmfHome), Truncated(pmfAway));
    GridIsDistribution(pmfHome, pmfAway, k);
    KeptMass(g, k, k + 1);
    KeptBoundValue(k, k + 1);
    ResultsPartition(Kept(g, k, k + 1));
  }

  /** The over and under masses at one line, summed over the kept scorelines. */
  method LineMasses(cells: seq<Scoreline>, line: real) returns (over: real, under: real)
    ensures over == Mass(cells, Above(line)) && under == Mass(cells, AtMost(line))
  {
    over, under := 0.0, 0.0;
    var i := 0;
    while i < |cells|
      invariant 0 <= i <= |cells|
      invariant over == Mass(cells[..i], Above(line)) && under == Mass(cells[..i], AtMost(line))
    {
      assert cells[..i + 1] == cells[..i] + [cells[i]];
      MassPush(cells[..i], cells[i], Above(line));
      MassPush(cells[..i], cells[i], AtMost(line));
      if (cells[i].home + cells[i].away) as real > line {
        over := over + cells[i].prob;
      } else {
        under := under + cells[i].prob;
      }
      i := i + 1;
    }
    assert cells[..|cells|] == cells;
  }

  /** The goal-total distribution 0..2k of the kept scorelines, as a specification. */
  function TotalsOf(cells: seq<Scoreline>, k: nat): (r: seq<real>)
    ensures |r| == 2 * k + 1
    ensures forall n :: 0 <= n < |r| ==> r[n] == Mass(cells, TotalIs(n))
  {
    seq(2 * k + 1, n requires 0 <= n => Mass(cells, TotalIs(n)))
  }

  /** The probability of each goal total 0..2k over the kept scorelines. */
  method GoalTotals(cells: seq<Scoreline>, k: nat) returns (totals: seq<real>)
    ensures |totals| == 2 * k + 1
    ensures forall n :: 0 <= n < |totals| ==> totals[n] == Mass(cells, TotalIs(n))
    ensures totals == TotalsOf(cells, k)
  {
    var a := new real[2 * k + 1](_ => 0.0);
    var i := 0;
    while i < |cells|
      invariant 0 <= i <= |cells|
      invariant forall n :: 0 <= n < a.Length ==> a[n] == Mass(cells[..i], TotalIs(n))
    {
      assert cells[..i + 1] == cells[..i] + [cells[i]];
      forall n | 0 <= n < a.Length
        ensures Mass(cells[..i + 1], TotalIs(n)) == Mass(cells[..i], TotalIs(n)) + (if cells[i].home + cells[i].away == n then cells[i].prob else 0.0)
      {
        MassPush(cells[..i], cells[i], TotalIs(n));
      }
      var idx := cells[i].home + cells[i].away;
      if idx < a.Length {
        a[idx] := a[idx] + cells[i].prob;
      }
      i := i + 1;
    }
    assert cells[..|cells|] == cells;
    totals := a[..];
  }

  // ---------------------------------------------------------------------
  // Multigoal

  /** A multigoal range: an interval lo..hi, lo or more goals, or a parity entry the selection skips. */
  datatype GoalRange = Span(lo: nat, hi: nat) | From(lo: nat) | Parity

  const MultigoalRanges: seq<(string, GoalRange)> := [
    ("0-1", Span(0, 1)), ("1-2", Span(1, 2)), ("1-3", Span(1, 3)), ("1-4", Span(1, 4)),
    ("0-2", Span(0, 2)), ("0-3", Span(0, 3)), ("2-3", Span(2, 3)), ("2-4", Span(2, 4)),
    ("2-5", Span(2, 5)), ("3-4", Span(3, 4)), ("3-5", Span(3, 5)), ("3-6", Span(3, 6)),
    ("4-5", Span(4, 5)), ("4-6", Span(4, 6)), ("4+", From(4)), ("5+", From(5)), ("6+", From(6)),
    ("Pari", Parity), ("Dispari", Parity)]

  const MultigoalFloor: real := 0.15

  /** The mass of a range over the goal-total vector; an upper end beyond the vector sums the tail. */
  function RangeMass(totals: seq<real>, r: GoalRange): real
  {
    match r
    case Span(lo, hi) =>
      if lo < |totals| && hi < |totals| && lo <= hi + 1 then Sum(totals[lo..hi + 1])
      else if lo < |totals| && hi < |totals| then 0.0
      else if lo < |totals| then Sum(totals[lo..])
      else 0.0
    case From(lo) => if lo < |totals| then Sum(totals[lo..]) else 0.0
    case Parity => 0.0
  }

  /**
   * name is the multigoal pick over these ranges: "NoBet" when no range's mass
   * exceeds 0.15, otherwise the name of a range whose mass exceeds 0.15, is at
   * least that of every range and strictly above that of every earlier range.
   */
  predicate IsBestRange(totals: seq<real>, ranges: seq<(string, GoalRange)>, name: string)
  {
    (name == Picks.NoBet &&
     forall j :: 0 <= j < |ranges| && !ranges[j].1.Parity? ==> RangeMass(totals, ranges[j].1) <= MultigoalFloor) ||
    (exists c :: 0 <= c < |ranges| && !ranges[c].1.Parity? && name == ranges[c].0 &&
       RangeMass(totals, ranges[c].1) > MultigoalFloor &&
       (forall j :: 0 <= j < |ranges| && !ranges[j].1.Parity? ==> RangeMass(totals, ranges[j].1) <= RangeMass(totals, ranges[c].1)) &&
       (forall j :: 0 <= j < c && !ranges[j].1.Parity? ==> RangeMass(totals, ranges[j].1) < RangeMass(totals, ranges[c].1)))
  }

  /**
   * The multigoal pick: the first range, in table order, whose mass exceeds
   * 0.15 and is at least that of every other range; "NoBet" when none exceeds 0.15.
   */
  method BestMultigoal(totals: seq<real>, ranges: seq<(string, GoalRange)>) returns (name: string, choice: Option<nat>)
    ensures choice.None? ==> name == Picks.NoBet
    ensures choice.None? ==> forall j :: 0 <= j < |ranges| && !ranges[j].1.Parity? ==> RangeMass(totals, ranges[j].1) <= MultigoalFloor
    ensures choice.Some? ==> choice.value < |ranges| && !ranges[choice.value].1.Parity? && name == ranges[choice.value].0
    ensures choice.Some? ==> var best := RangeMass(totals, ranges[choice.value].1);
      && best > MultigoalFloor
      && (forall j :: 0 <= j < |ranges| && !ranges[j].1.Parity? ==> RangeMass(totals, ranges[j].1) <= best)
      && (forall j :: 0 <= j < choice.value && !ranges[j].1.Parity? ==> RangeMass(totals, ranges[j].1) < best)
  {
    name, choice := Picks.NoBet, None;
    var maxMass := MultigoalFloor;
    var i := 0;
    while i < |ranges|
      invariant 0 <= i <= |ranges|
      invariant choice.None? ==> name == Picks.NoBet && maxMass == MultigoalFloor
      invariant choice.Some? ==> choice.value < i && !ranges[choice.value].1.Parity? && name == ranges[choice.value].0
      invariant choice.Some? ==> maxMass == RangeMass(totals, ranges[choice.value].1) > MultigoalFloor
      invariant forall j :: 0 <= j < i && !ranges[j].1.Parity? ==> RangeMass(totals, ranges[j].1) <= maxMass
      invariant choice.Some? ==> forall j :: 0 <= j < choice.value && !ranges[j].1.Parity? ==> RangeMass(totals, ranges[j].1) < maxMass
    {
      var (rangeName, r) := ranges[i];
      if !r.Parity? {
        var mass := RangeMass(totals, r);
        if mass > maxMass {
          maxMass, name, choice := mass, rangeName, Some(i);
        }
      }
      i := i + 1;
    }
  }

  /** The likeliest scoreline; on ties the first in row-major order (the stable descending sort). */
  function MostLikely(cells: seq<Scoreline>): (k: nat)
    requires cells != []
    ensures k < |cells|
    ensures forall j :: 0 <= j < |cells| ==> cells[j].prob <= cells[k].prob
    ensures forall j :: 0 <= j < k ==> cells[j].prob < cells[k].prob
  {
    if |cells| == 1 then 0
    else
      var k := MostLikely(cells[..|cells| - 1]);
      if cells[|cells| - 1].prob > cells[k].prob then |cells| - 1 else k
  }

  // ---------------------------------------------------------------------
  // The extraction of all grid markets

  datatype LinePick = LinePick(line: real, pick: string, pOver: real)

  datatype FullTimeMarkets = FullTimeMarkets(doubleChance: string, p1x: real, px2: real,
                                             exactScore: Option<Scoreline>, multigoal: string)

  datatype Markets = Markets(result: string, p1: real, px: real, p2: real,
                             bothScore: string, pGg: real, pNg: real,
                             lines: seq<LinePick>, fullTime: Option<FullTimeMarkets>)

  const FullTimeLines: seq<real> := [0.5, 1.5, 2.5, 3.5, 4.5, 5.5]
  const FirstHalfLines: seq<real> := [0.5, 1.5]

  /**
   * The markets of one grid. The first-half variant has only the result,
   * both-score and its two lines; full time adds double chance, the exact
   * score and the multigoal range.
   */
  method Extract(g: seq<seq<real>>, k: nat, firstHalf: bool) returns (m: Markets)
    requires IsGrid(g, k)
    ensures var cells := Kept(g, k, k + 1);
      && m.p1 == Mass(cells, HomeWin) && m.px == Mass(cells, Draw) && m.p2 == Mass(cells, AwayWin)
      && m.pGg == Mass(cells, BothScore) && m.pNg == Mass(cells, NotBoth)
      && m.result == Picks.Result1X2(m.p1, m.px, m.p2)
      && m.bothScore == Picks.BothScore(m.pGg, m.pNg)
    ensures var cells := Kept(g, k, k + 1);
      var lines := if firstHalf then FirstHalfLines else FullTimeLines;
      && |m.lines| == |lines|
      && forall n :: 0 <= n < |lines| ==>
           && m.lines[n].line == lines[n]
           && m.lines[n].pOver == Mass(cells, Above(lines[n]))
           && m.lines[n].pick == Picks.OverUnder(Mass(cells, Above(lines[n])), Mass(cells, AtMost(lines[n])))
    ensures firstHalf <==> m.fullTime.None?
    ensures m.fullTime.Some? ==> var cells := Kept(g, k, k + 1);
      var ft := m.fullTime.value;
      && ft.doubleChance == Picks.DoubleChance(m.result, m.p1, m.px, m.p2)
      && ft.p1x == m.p1 + m.px && ft.px2 == m.p2 + m.px
      && ft.exactScore == (if cells == [] then None else Some(cells[MostLikely(cells)]))
      && IsBestRange(TotalsOf(cells, k), MultigoalRanges, ft.multigoal)
  {
    var cells, p1, px, p2, pGg, pNg := Aggregate(g, k);
    var result := Picks.Result1X2(p1, px, p2);
    var both := Picks.BothScore(pGg, pNg);
    var lines := if firstHalf then FirstHalfLines else FullTimeLines;
    var picks: seq<LinePick> := [];
    var n := 0;
    while n < |lines|
      invariant 0 <= n <= |lines|
      invariant |picks| == n
      invariant forall q :: 0 <= q < n ==>
        && picks[q].line == lines[q]
        && picks[q].pOver == Mass(cells, Above(lines[q]))
        && picks[q].pick == Picks.OverUnder(Mass(cells, Above(lines[q])), Mass(cells, AtMost(lines[q])))
    {
      var over, under := LineMasses(cells, lines[n]);
      picks := picks + [LinePick(lines[n], Picks.OverUnder(over, under), over)];
      n := n + 1;
    }
    var fullTime: Option<FullTimeMarkets> := None;
    if !firstHalf {
      var dc := Picks.DoubleChance(result, p1, px, p2);
      var exact := if cells == [] then None else Some(cells[MostLikely(cells)]);
      var totals := GoalTotals(cells, k);
      var multigoal, choice := BestMultigoal(totals, MultigoalRanges);
      assert IsBestRange(totals, MultigoalRanges, multigoal) by {
        if choice.Some? {
          var c := choice.value;
          assert 0 <= c < |MultigoalRanges| && !MultigoalRanges[c].1.Parity? && multigoal == MultigoalRanges[c].0;
        }
      }
      fullTime := Some(FullTimeMarkets(dc, p1 + px, p2 + px, exact, multigoal));
    }
    m := Markets(result, p1, px, p2, both, pGg, pNg, picks, fullTime);
  }
}
