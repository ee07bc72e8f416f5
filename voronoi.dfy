/**
 * The Voronoi-style renderer (`DrawVoronoi`): 64 sites jittered by the
 * spectrum energy of their band and wrapped once at the edges, each joined
 * to its nearest neighbours by squared distance.
 */
module Voronoi {
  import opened Numerics
  import opened Geometry
  import opened RealArith
  import opened RenderCommon

  /** The number of sites the list grows to. */
  const SiteCount: nat := 64

  /** The number of neighbours each site is joined to. */
  const K: nat := 3

  /** The two `NextDouble()` draws of a new site, or of one site's jitter. */
  datatype PairDraw = PairDraw(x: real, y: real)

  predicate PairDrawOk(d: PairDraw)
  {
    Unit(d.x) && Unit(d.y)
  }

  /** A new site at `(x * width, y * height)`. */
  function NewSite(d: PairDraw, width: int, height: int): (p: Vec2)
    ensures PairDrawOk(d) && 0 <= width && 0 <= height ==>
      0.0 <= p.x <= width as real && 0.0 <= p.y <= height as real
  {
    if PairDrawOk(d) && 0 <= width && 0 <= height then
      var x := ScaleOrZero(d.x, width as real);
      var y := ScaleOrZero(d.y, height as real);
      Vec2(x, y)
    else
      Vec2(d.x * width as real, d.y * height as real)
  }

  /** `u * k` for `u` in [0, 1) and `k >= 0`: in [0, k]. */
  function ScaleOrZero(u: real, k: real): (e: real)
    requires Unit(u) && 0.0 <= k
    ensures 0.0 <= e <= k
    ensures e == u * k
  {
    if k == 0.0 then assert u * k == 0.0; 0.0 else ScaleUnit(u, k)
  }

  /** The sites added while fewer than 64, in order; existing sites are kept. */
  function Grown(sites: seq<Vec2>, draws: nat -> PairDraw, width: int, height: int): (r: seq<Vec2>)
    ensures |r| == if |sites| < SiteCount then SiteCount else |sites|
    ensures r[..|sites|] == sites
    decreases SiteCount - |sites|
  {
    if |sites| < SiteCount then Grown(sites + [NewSite(draws(|sites|), width, height)], draws, width, height)
    else sites
  }

  /** `Min(1.5, spectrum[idx] * 8)`: the energy of site `i`'s band. */
  function Energy(spectrum: seq<real>, i: nat, count: nat): (e: real)
    requires i < count && |spectrum| >= 1
    ensures e <= 1.5
    ensures AllNonNegative(spectrum) ==> 0.0 <= e
  {
    var idx := BandIndex(i, count, |spectrum|);
    Min(1.5, spectrum[idx] * 8.0)
  }

  /** The jitter magnitude `2 + e * 8 + beatPulse * 6`. */
  function JitterScale(e: real, beatPulse: real): (s: real)
    ensures 0.0 <= e <= 1.5 && 0.0 <= beatPulse <= 1.0 ==> 2.0 <= s <= 20.0
  {
    2.0 + e * 8.0 + beatPulse * 6.0
  }

  /**
   * The single wrap correction of one coordinate: a negative value has
   * `extent` added, then (checked second) a value above `extent` has it
   * subtracted.
   */
  function WrapOnce(x: real, extent: real): (r: real)
    ensures 0.0 <= x <= extent ==> r == x
    ensures -extent <= x < 0.0 ==> r == x + extent
    ensures extent < x <= 2.0 * extent ==> r == x - extent
  {
    var a := if x < 0.0 then extent + x else x;
    if a > extent then a - extent else a
  }

  /**
   * A coordinate inside [0, extent] moved by at most `extent` either way is
   * brought back into [0, extent] by the single correction.
   */
  lemma WrapOnceInRange(x: real, j: real, extent: real)
    requires 0.0 <= x <= extent && -extent <= j <= extent
    ensures 0.0 <= WrapOnce(x + j, extent) <= extent
  {
  }

  /** One jitter component `(2u - 1) * scale`: at most `scale` either way. */
  function Offset(u: real, scale: real): (o: real)
    ensures Unit(u) && 0.0 <= scale ==> -scale <= o <= scale
  {
    if Unit(u) && 0.0 <= scale then
      SignedScale(u * 2.0 - 1.0, scale);
      (u * 2.0 - 1.0) * scale
    else
      (u * 2.0 - 1.0) * scale
  }

  /** One site's move: `jitter = (2u - 1, 2v - 1) * scale`, then the wrap. */
  function Jittered(p: Vec2, d: PairDraw, scale: real, width: int, height: int): (r: Vec2)
  {
    var q := p.Plus(Vec2(Offset(d.x, scale), Offset(d.y, scale)));
    Vec2(WrapOnce(q.x, width as real), WrapOnce(q.y, height as real))
  }

  /**
   * A site on screen stays on screen when its jitter magnitude is at most
   * the width and the height (it is at most 20 for levels in range).
   */
  lemma JitteredOnScreen(p: Vec2, d: PairDraw, scale: real, width: int, height: int)
    requires PairDrawOk(d) && 0.0 <= scale <= width as real && scale <= height as real
    requires OnScreen(p, width, height)
    ensures OnScreen(Jittered(p, d, scale, width, height), width, height)
  {
    WrapOnceInRange(p.x, Offset(d.x, scale), width as real);
    WrapOnceInRange(p.y, Offset(d.y, scale), height as real);
  }

  /** Every site jittered, in list order, each by its own band's energy and its own draws. */
  function JitterAll(sites: seq<Vec2>, spectrum: seq<real>, beatPulse: real, draws: nat -> PairDraw,
                     width: int, height: int): (r: seq<Vec2>)
    requires |spectrum| >= 1
    ensures |r| == |sites|
  {
    seq(|sites|, i requires 0 <= i < |sites| =>
      Jittered(sites[i], draws(i), JitterScale(Energy(spectrum, i, |sites|), beatPulse), width, height))
  }

  /**
   * With the spectrum non-negative, the beat in [0, 1] and a screen at least
   * 20 pixels each way, sites on screen stay on screen.
   */
  lemma JitterAllOnScreen(sites: seq<Vec2>, spectrum: seq<real>, beatPulse: real, draws: nat -> PairDraw,
                          width: int, height: int)
    requires |spectrum| >= 1 && AllNonNegative(spectrum) && 0.0 <= beatPulse <= 1.0
    requires 20 <= width && 20 <= height
    requires forall k: nat :: PairDrawOk(draws(k))
    requires forall i :: 0 <= i < |sites| ==> OnScreen(sites[i], width, height)
    ensures var r := JitterAll(sites, spectrum, beatPulse, draws, width, height);
      forall i :: 0 <= i < |r| ==> OnScreen(r[i], width, height)
  {
    var r := JitterAll(sites, spectrum, beatPulse, draws, width, height);
    forall i | 0 <= i < |r|
      ensures OnScreen(r[i], width, height)
    {
      var scale := JitterScale(Energy(spectrum, i, |sites|), beatPulse);
      assert PairDrawOk(draws(i));
      JitteredOnScreen(sites[i], draws(i), scale, width, height);
    }
  }

  predicate OnScreen(p: Vec2, width: int, height: int)
  {
    0.0 <= p.x <= width as real && 0.0 <= p.y <= height as real
  }

  /** New sites from in-range draws lie on screen, so the grown list does too. */
  lemma {:induction false} GrownOnScreen(sites: seq<Vec2>, draws: nat -> PairDraw, width: nat, height: nat)
    requires forall k: nat :: PairDrawOk(draws(k))
    requires forall i :: 0 <= i < |sites| ==> OnScreen(sites[i], width, height)
    ensures var r := Grown(sites, draws, width, height);
      forall i :: 0 <= i < |r| ==> OnScreen(r[i], width, height)
    decreases SiteCount - |sites|
  {
    if |sites| < SiteCount {
      var next := sites + [NewSite(draws(|sites|), width, height)];
      assert PairDrawOk(draws(|sites|));
      assert forall i :: 0 <= i < |next| ==> OnScreen(next[i], width, height) by {
        forall i | 0 <= i < |next| ensures OnScreen(next[i], width, height) {
          if i < |sites| { assert next[i] == sites[i]; }
        }
      }
      GrownOnScreen(next, draws, width, height);
      assert Grown(sites, draws, width, height) == Grown(next, draws, width, height);
    }
  }

  /** An entry `(d, j)` of a site's neighbour list. */
  datatype Neighbour = Neighbour(d: real, j: nat)

  /** `dx * dx + dy * dy`. */
  function SqDist(a: Vec2, b: Vec2): (d: real)
    ensures 0.0 <= d
  {
    var dx := b.x - a.x;
    var dy := b.y - a.y;
    NonNegProduct(if dx >= 0.0 then dx else -dx, if dx >= 0.0 then dx else -dx);
    NonNegProduct(if dy >= 0.0 then dy else -dy, if dy >= 0.0 then dy else -dy);
    dx * dx + dy * dy
  }

  /** The neighbour list of site `i` before sorting: `(d, j)` for every `j < n` other than `i`, in order. */
  function Candidates(sites: seq<Vec2>, i: nat, n: nat): (c: seq<Neighbour>)
    requires i < |sites| && n <= |sites|
    decreases n
  {
    if n == 0 then []
    else if n - 1 == i then Candidates(sites, i, n - 1)
    else Candidates(sites, i, n - 1) + [Neighbour(SqDist(sites[i], sites[n - 1]), n - 1)]
  }

  /** The site indices of a neighbour list, as a multiset. */
  function Indices(c: seq<Neighbour>): (m: multiset<nat>)
    ensures |m| == |c|
  {
    if c == [] then multiset{} else Indices(c[..|c| - 1]) + multiset{c[|c| - 1].j}
  }

  /** An entry names another site and carries its squared distance from site `i`. */
  predicate Genuine(sites: seq<Vec2>, i: nat, e: Neighbour)
    requires i < |sites|
  {
    e.j < |sites| && e.j != i && e.d == SqDist(sites[i], sites[e.j])
  }

  /** Site `i`'s candidates name only other sites below `n`, each with its squared distance. */
  lemma {:induction false} CandidatesGenuine(sites: seq<Vec2>, i: nat, n: nat)
    requires i < |sites| && n <= |sites|
    ensures forall k :: 0 <= k < |Candidates(sites, i, n)| ==>
      Genuine(sites, i, Candidates(sites, i, n)[k]) && Candidates(sites, i, n)[k].j < n
    decreases n
  {
    if n > 0 {
      CandidatesGenuine(sites, i, n - 1);
      var c := Candidates(sites, i, n);
      var prev := Candidates(sites, i, n - 1);
      if n - 1 != i {
        assert c == prev + [Neighbour(SqDist(sites[i], sites[n - 1]), n - 1)];
        forall k | 0 <= k < |c| ensures Genuine(sites, i, c[k]) && c[k].j < n {
          if k < |prev| {
            assert c[k] == prev[k];
          }
        }
      } else {
        assert c == prev;
        forall k | 0 <= k < |c| ensures Genuine(sites, i, c[k]) && c[k].j < n {
          assert c[k] == prev[k];
        }
      }
    }
  }

  /** Site `i`'s candidates name every other site below `n` exactly once, and never `i` itself. */
  lemma {:induction false} CandidatesOnce(sites: seq<Vec2>, i: nat, n: nat)
    requires i < |sites| && n <= |sites|
    ensures forall j: nat :: Indices(Candidates(sites, i, n))[j] == if j < n && j != i then 1 else 0
    decreases n
  {
    if n > 0 {
      CandidatesOnce(sites, i, n - 1);
      var c := Candidates(sites, i, n);
      var prev := Candidates(sites, i, n - 1);
      if n - 1 != i {
        assert c == prev + [Neighbour(SqDist(sites[i], sites[n - 1]), n - 1)];
        assert c[..|c| - 1] == prev;
        assert Indices(c) == Indices(prev) + multiset{n - 1};
        forall j: nat ensures Indices(c)[j] == if j < n && j != i then 1 else 0 {
          assert Indices(c)[j] == Indices(prev)[j] + if j == n - 1 then 1 else 0;
        }
      } else {
        assert c == prev;
      }
    }
  }

  /** `List.Sort` by ascending `d`. */
  predicate SortedByDistance(s: seq<Neighbour>)
  {
    forall a, b :: 0 <= a < b < |s| ==> s[a].d <= s[b].d
  }

  /** `x` placed before the first entry not nearer than it. */
  function Insert(x: Neighbour, s: seq<Neighbour>): (r: seq<Neighbour>)
    ensures |r| == |s| + 1
  {
    if s == [] then [x]
    else if x.d <= s[0].d then [x] + s
    else [s[0]] + Insert(x, s[1..])
  }

  /** Inserting adds exactly `x`. */
  lemma {:induction false} InsertAdds(x: Neighbour, s: seq<Neighbour>)
    ensures multiset(Insert(x, s)) == multiset(s) + multiset{x}
  {
    if s != [] && x.d > s[0].d {
      InsertAdds(x, s[1..]);
      assert s == [s[0]] + s[1..];
    }
  }

  /** Inserting into a sorted list keeps it sorted. */
  lemma {:induction false} InsertSorted(x: Neighbour, s: seq<Neighbour>)
    requires SortedByDistance(s)
    ensures SortedByDistance(Insert(x, s))
  {
    if s != [] && x.d > s[0].d {
      var rest := Insert(x, s[1..]);
      InsertSorted(x, s[1..]);
      InsertAdds(x, s[1..]);
      forall k | 0 <= k < |rest| ensures s[0].d <= rest[k].d {
        assert rest[k] in multiset(rest);
        if rest[k] != x {
          assert rest[k] in multiset(s[1..]);
          var m :| 0 <= m < |s[1..]| && s[1..][m] == rest[k];
          assert s[m + 1] == rest[k];
        }
      }
      assert Insert(x, s) == [s[0]] + rest;
    }
  }

  /** The list sorted by ascending distance (an insertion sort). */
  function SortByDistance(s: seq<Neighbour>): (r: seq<Neighbour>)
    ensures |r| == |s|
  {
    if s == [] then [] else Insert(s[|s| - 1], SortByDistance(s[..|s| - 1]))
  }

  /** The sorted list is sorted and holds the same entries. */
  lemma {:induction false} SortByDistanceCorrect(s: seq<Neighbour>)
    ensures SortedByDistance(SortByDistance(s))
    ensures multiset(SortByDistance(s)) == multiset(s)
  {
    if s != [] {
      var front := s[..|s| - 1];
      SortByDistanceCorrect(front);
      InsertAdds(s[|s| - 1], SortByDistance(front));
      InsertSorted(s[|s| - 1], SortByDistance(front));
      assert s == front + [s[|s| - 1]];
    }
  }

  /** Site `i`'s neighbour list after `neigh.Sort`. */
  function NeighbourList(sites: seq<Vec2>, i: nat): seq<Neighbour>
    requires i < |sites|
  {
    SortByDistance(Candidates(sites, i, |sites|))
  }

  /** The neighbours joined by edges: the first `Min(k, neigh.Count)` of the sorted list. */
  function Edges(sites: seq<Vec2>, i: nat): (e: seq<Neighbour>)
    requires i < |sites|
  {
    var neigh := NeighbourList(sites, i);
    neigh[..if K <= |neigh| then K else |neigh|]
  }

  /** Sorting keeps every entry genuine and every other site exactly once. */
  lemma NeighbourListExact(sites: seq<Vec2>, i: nat)
    requires i < |sites|
    ensures var neigh := NeighbourList(sites, i);
      |neigh| == |sites| - 1
      && SortedByDistance(neigh)
      && (forall k :: 0 <= k < |neigh| ==> Genuine(sites, i, neigh[k]))
      && (forall j: nat :: Indices(neigh)[j] == if j < |sites| && j != i then 1 else 0)
  {
    var c := Candidates(sites, i, |sites|);
    var neigh := NeighbourList(sites, i);
    CandidatesGenuine(sites, i, |sites|);
    CandidatesOnce(sites, i, |sites|);
    SortByDistanceCorrect(c);
    IndicesOfPermutation(c, neigh);
    IndicesCount(sites, i);
    PermutationGenuine(sites, i, c, neigh);
  }

  /** A rearranged list of genuine entries holds only genuine entries. */
  lemma PermutationGenuine(sites: seq<Vec2>, i: nat, c: seq<Neighbour>, neigh: seq<Neighbour>)
    requires i < |sites| && multiset(c) == multiset(neigh)
    requires forall k :: 0 <= k < |c| ==> Genuine(sites, i, c[k])
    ensures forall k :: 0 <= k < |neigh| ==> Genuine(sites, i, neigh[k])
  {
    forall k | 0 <= k < |neigh| ensures Genuine(sites, i, neigh[k]) {
      assert neigh[k] in multiset(c);
      var m :| 0 <= m < |c| && c[m] == neigh[k];
    }
  }

  /** Every other site is counted once, so there are `|sites| - 1` candidates. */
  lemma IndicesCount(sites: seq<Vec2>, i: nat)
    requires i < |sites|
    ensures |Candidates(sites, i, |sites|)| == |sites| - 1
  {
    CountCandidates(sites, i, |sites|);
  }

  lemma {:induction false} CountCandidates(sites: seq<Vec2>, i: nat, n: nat)
    requires i < |sites| && n <= |sites|
    ensures |Candidates(sites, i, n)| == if i < n then n - 1 else n
    decreases n
  {
    if n > 0 {
      CountCandidates(sites, i, n - 1);
    }
  }

  /** Two lists with the same entries have the same site indices. */
  lemma {:induction false} IndicesOfPermutation(a: seq<Neighbour>, b: seq<Neighbour>)
    requires multiset(a) == multiset(b)
    ensures Indices(a) == Indices(b)
    decreases |a|
  {
    if a != [] {
      var x := a[|a| - 1];
      assert x in multiset(b);
      var k :| 0 <= k < |b| && b[k] == x;
      var b' := b[..k] + b[k + 1..];
      assert b == b[..k] + [x] + b[k + 1..];
      assert a == a[..|a| - 1] + [x];
      assert multiset(a) == multiset(a[..|a| - 1]) + multiset{x};
      assert multiset(b) == multiset(b[..k]) + multiset{x} + multiset(b[k + 1..]);
      assert multiset(b') == multiset(b[..k]) + multiset(b[k + 1..]);
      assert multiset(a[..|a| - 1]) == multiset(a) - multiset{x};
      assert multiset(b') == multiset(b) - multiset{x};
      IndicesOfPermutation(a[..|a| - 1], b');
      IndicesRemove(b, k);
    }
  }

  /** Removing entry `k` removes its index. */
  lemma {:induction false} IndicesRemove(b: seq<Neighbour>, k: nat)
    requires k < |b|
    ensures Indices(b) == Indices(b[..k] + b[k + 1..]) + multiset{b[k].j}
    decreases |b|
  {
    if k < |b| - 1 {
      var front := b[..|b| - 1];
      IndicesRemove(front, k);
      assert front[..k] + front[k + 1..] == (b[..k] + b[k + 1..])[..|b| - 2];
    } else {
      assert b[..k] + b[k + 1..] == b[..|b| - 1];
    }
  }

  /** An index counted in `Indices(s)` belongs to some entry. */
  lemma {:induction false} InIndices(s: seq<Neighbour>, j: nat)
    requires Indices(s)[j] > 0
    ensures exists k :: 0 <= k < |s| && s[k].j == j
    decreases |s|
  {
    if s[|s| - 1].j != j {
      InIndices(s[..|s| - 1], j);
      var k :| 0 <= k < |s| - 1 && s[..|s| - 1][k].j == j;
      assert s[k].j == j;
    }
  }

  /**
   * Edges go to exactly `min(3, Count - 1)` genuine neighbours, and every
   * site not joined is at least as far as each joined one.
   */
  lemma EdgesAreNearest(sites: seq<Vec2>, i: nat)
    requires i < |sites|
    ensures var e := Edges(sites, i);
      |e| == (if K <= |sites| - 1 then K else |sites| - 1)
      && (forall n :: 0 <= n < |e| ==> Genuine(sites, i, e[n]))
      && forall j :: 0 <= j < |sites| && j != i && (forall n :: 0 <= n < |e| ==> e[n].j != j) ==>
           forall n :: 0 <= n < |e| ==> e[n].d <= SqDist(sites[i], sites[j])
  {
    var neigh := NeighbourList(sites, i);
    var e := Edges(sites, i);
    NeighbourListExact(sites, i);
    forall j | 0 <= j < |sites| && j != i && (forall n :: 0 <= n < |e| ==> e[n].j != j)
      ensures forall n :: 0 <= n < |e| ==> e[n].d <= SqDist(sites[i], sites[j])
    {
      assert Indices(neigh)[j] == 1;
      InIndices(neigh, j);
      var k :| 0 <= k < |neigh| && neigh[k].j == j;
      assert Genuine(sites, i, neigh[k]);
      assert forall n :: 0 <= n < |e| ==> e[n] == neigh[n];
      forall n | 0 <= n < |e| ensures e[n].d <= SqDist(sites[i], sites[j]) {
        assert e[n].j != j;
      }
    }
  }

  /** The form's site list. */
  class Sites {
    var voronoiSites: seq<Vec2>

    constructor ()
      ensures voronoiSites == []
    {
      voronoiSites := [];
    }

    /**
     * One `DrawVoronoi` frame: grow to 64 sites (never trimmed), jitter
     * every site in place, then pick each site's edges.
     */
    method DrawVoronoi(width: int, height: int, spectrum: seq<real>, beatPulse: real,
                       grow: nat -> PairDraw, jitter: nat -> PairDraw) returns (edges: seq<seq<Neighbour>>)
      requires |spectrum| >= 1
      modifies this
      ensures voronoiSites == JitterAll(Grown(old(voronoiSites), grow, width, height), spectrum, beatPulse, jitter, width, height)
      ensures |edges| == |voronoiSites| && forall i :: 0 <= i < |edges| ==> edges[i] == Edges(voronoiSites, i)
    {
      var pool := GrowSites(voronoiSites, grow, width, height);
      pool := JitterSites(pool, spectrum, beatPulse, jitter, width, height);
      voronoiSites := pool;
      edges := AllEdges(pool);
    }
  }

  /** `while (voronoiSites.Count < sites) voronoiSites.Add(...)`. */
  method GrowSites(sites: seq<Vec2>, draws: nat -> PairDraw, width: int, height: int) returns (r: seq<Vec2>)
    ensures r == Grown(sites, draws, width, height)
  {
    r := sites;
    while |r| < SiteCount
      invariant Grown(r, draws, width, height) == Grown(sites, draws, width, height)
      decreases SiteCount - |r|
    {
      r := r + [NewSite(draws(|r|), width, height)];
    }
  }

  /** The drawing loop over the sites: each site's edges, in site order. */
  method AllEdges(sites: seq<Vec2>) returns (edges: seq<seq<Neighbour>>)
    ensures |edges| == |sites| && forall i :: 0 <= i < |edges| ==> edges[i] == Edges(sites, i)
  {
    edges := [];
    var i := 0;
    while i < |sites|
      invariant 0 <= i <= |sites| && |edges| == i
      invariant forall k :: 0 <= k < i ==> edges[k] == Edges(sites, k)
    {
      edges := edges + [Edges(sites, i)];
      i := i + 1;
    }
  }

  /** The jitter loop: each site replaced by its jittered copy, in place. */
  method JitterSites(sites: seq<Vec2>, spectrum: seq<real>, beatPulse: real, draws: nat -> PairDraw,
                     width: int, height: int) returns (r: seq<Vec2>)
    requires |spectrum| >= 1
    ensures r == JitterAll(sites, spectrum, beatPulse, draws, width, height)
  {
    r := sites;
    var i := 0;
    while i < |r|
      invariant 0 <= i <= |r| == |sites|
      invariant forall j :: 0 <= j < i ==>
        r[j] == Jittered(sites[j], draws(j), JitterScale(Energy(spectrum, j, |sites|), beatPulse), width, height)
      invariant forall j :: i <= j < |r| ==> r[j] == sites[j]
    {
      var e := Energy(spectrum, i, |r|);
      r := r[i := Jittered(r[i], draws(i), JitterScale(e, beatPulse), width, height)];
      i := i + 1;
    }
  }
}
