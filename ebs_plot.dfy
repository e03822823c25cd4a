/**
 * The axis bookkeeping of a band-structure plot: which spins are drawn, the
 * x axis built from a k-path, the handle list, the ticks and the default
 * limits. Nothing is drawn; the matplotlib axes are modelled by the values the
 * plot hands to them. Models pyprocar/plotter/ebs_plot.py.
 */
module EbsPlot {
  import opened Common
  import opened KPaths

  /**
   * What the plot reads from an electronic band structure: its sizes, whether
   * it is non-collinear, and every band energy (the plot only takes their
   * minimum and maximum). `nspins` is also the extent of the spin axis of the
   * bands array.
   */
  datatype BandStructure = BandStructure(
    nkpoints: nat,
    nbands: nat,
    nspins: nat,
    isNonCollinear: bool,
    energies: seq<real>)

  /** The line drawn for one band of one spin. */
  datatype Handle = Handle(spin: nat, band: nat)

  predicate Sorted(s: seq<real>)
  {
    forall i, j :: 0 <= i <= j < |s| ==> s[i] <= s[j]
  }

  // ---------------------------------------------------------------------------
  // The x axis

  /** `np.linspace(a, b, n)`: n evenly spaced points, the first a and the last b. */
  function Linspace(a: real, b: real, n: nat): (r: seq<real>)
    ensures |r| == n
    ensures n >= 1 ==> r[0] == a
    ensures n >= 2 ==> r[n - 1] == b
  {
    if n == 0 then []
    else if n == 1 then [a]
    else
      var step := (b - a) / ((n - 1) as real);
      assert step * ((n - 1) as real) == b - a;
      seq(n, i requires 0 <= i < n => a + step * (i as real))
  }

  /** From a to b, linspace never steps back and stays between its ends. */
  lemma LinspaceBetween(a: real, b: real, n: nat)
    requires a <= b
    ensures Sorted(Linspace(a, b, n))
    ensures forall i :: 0 <= i < n ==> a <= Linspace(a, b, n)[i] <= b
  {
    var r := Linspace(a, b, n);
    if n >= 2 {
      var step := (b - a) / ((n - 1) as real);
      assert step >= 0.0;
      forall i, j | 0 <= i <= j < n ensures r[i] <= r[j] {
        assert r[j] - r[i] == step * (j as real) - step * (i as real) == step * ((j - i) as real);
        assert step * ((j - i) as real) >= 0.0;
      }
      forall i | 0 <= i < n ensures a <= r[i] <= b {
        assert r[i] <= r[n - 1];
      }
    }
  }

  /** `np.arange(0, n)`. */
  function Arange(n: nat): (r: seq<real>)
    ensures |r| == n && forall i :: 0 <= i < n ==> r[i] == i as real
  {
    seq(n, i requires 0 <= i < n => i as real)
  }

  /**
   * The length of segment i, `np.linalg.norm(kend - kstart)`, with the norm
   * of the difference of two k-points supplied as `dist`.
   */
  function SegmentLength(kp: KPath, dist: (Vec, Vec) -> real, i: nat): real
    requires i < |kp.specialKpoints|
  {
    dist(kp.specialKpoints[i].1, kp.specialKpoints[i].0)
  }

  /** Where segment n starts on the x axis: the lengths of the segments before it. */
  function SegmentStart(kp: KPath, dist: (Vec, Vec) -> real, n: nat): real
    requires n <= |kp.specialKpoints|
  {
    if n == 0 then 0.0 else SegmentStart(kp, dist, n - 1) + SegmentLength(kp, dist, n - 1)
  }

  /** Every segment the axis is built from has a non-negative number of grid points. */
  predicate GridsNonNegative(kp: KPath, n: nat)
  {
    n <= |kp.ngrids| && forall i :: 0 <= i < n ==> kp.ngrids[i] >= 0
  }

  /** The x values of the first n segments: each segment's grid spread evenly over its length. */
  function XPrefix(kp: KPath, dist: (Vec, Vec) -> real, n: nat): seq<real>
    requires n <= |kp.specialKpoints| && GridsNonNegative(kp, n)
  {
    if n == 0 then []
    else
      var start := SegmentStart(kp, dist, n - 1);
      XPrefix(kp, dist, n - 1) + Linspace(start, start + SegmentLength(kp, dist, n - 1), kp.ngrids[n - 1])
  }

  /** The path gives the x axis exactly when it has one grid count per segment. */
  predicate UsesPath(kpath: Option<KPath>)
  {
    kpath.Some? && NSegments(kpath.value) == |kpath.value.ngrids|
  }

  /**
   * What `_get_x` needs: a path used for the axis has at least one segment
   * (otherwise `x` is never bound), a point pair per segment, and grid counts
   * linspace accepts.
   */
  predicate XDefined(kpath: Option<KPath>)
  {
    UsesPath(kpath) ==>
      var kp := kpath.value;
      NSegments(kp) >= 1 && NSegments(kp) <= |kp.specialKpoints| && GridsNonNegative(kp, NSegments(kp))
  }

  /** The x axis: the path's segments laid end to end, or the k-point indices. */
  function XAxis(ebs: BandStructure, kpath: Option<KPath>, dist: (Vec, Vec) -> real): seq<real>
    requires XDefined(kpath)
  {
    if UsesPath(kpath) then XPrefix(kpath.value, dist, NSegments(kpath.value)) else Arange(ebs.nkpoints)
  }

  /** The axis holds one value per grid point of the segments it covers. */
  lemma {:induction false} XPrefixLength(kp: KPath, dist: (Vec, Vec) -> real, n: nat)
    requires n <= |kp.specialKpoints| && GridsNonNegative(kp, n)
    ensures |XPrefix(kp, dist, n)| == Sum(kp.ngrids[..n])
  {
    if n > 0 {
      XPrefixLength(kp, dist, n - 1);
      SumPrefixStep(kp.ngrids, n - 1);
    }
  }

  /**
   * With segments of non-negative length the axis never steps back, and it
   * stays between 0 and the start of the next segment.
   */
  lemma {:induction false} XPrefixSorted(kp: KPath, dist: (Vec, Vec) -> real, n: nat)
    requires n <= |kp.specialKpoints| && GridsNonNegative(kp, n)
    requires forall i :: 0 <= i < n ==> SegmentLength(kp, dist, i) >= 0.0
    ensures SegmentStart(kp, dist, n) >= 0.0
    ensures Sorted(XPrefix(kp, dist, n))
    ensures forall i :: 0 <= i < |XPrefix(kp, dist, n)| ==>
      0.0 <= XPrefix(kp, dist, n)[i] <= SegmentStart(kp, dist, n)
  {
    if n > 0 {
      XPrefixSorted(kp, dist, n - 1);
      var start := SegmentStart(kp, dist, n - 1);
      var front := XPrefix(kp, dist, n - 1);
      var back := Linspace(start, start + SegmentLength(kp, dist, n - 1), kp.ngrids[n - 1]);
      LinspaceBetween(start, start + SegmentLength(kp, dist, n - 1), kp.ngrids[n - 1]);
      var all := front + back;
      assert all == XPrefix(kp, dist, n);
      forall i, j | 0 <= i <= j < |all| ensures all[i] <= all[j] {
        if j < |front| {
        } else if i < |front| {
          assert all[i] <= start <= back[j - |front|];
        } else {
          assert all[i] == back[i - |front|] && all[j] == back[j - |front|];
        }
      }
    }
  }

  /** When the first segment has a grid point, the axis starts at 0. */
  lemma {:induction false} XPrefixStartsAtZero(kp: KPath, dist: (Vec, Vec) -> real, n: nat)
    requires 1 <= n <= |kp.specialKpoints| && GridsNonNegative(kp, n) && kp.ngrids[0] >= 1
    ensures |XPrefix(kp, dist, n)| >= 1 && XPrefix(kp, dist, n)[0] == 0.0
  {
    if n > 1 {
      XPrefixStartsAtZero(kp, dist, n - 1);
    }
  }

  /**
   * With every grid count at least 1, every tick position of the path indexes
   * inside the axis, so the lookups of `set_xticks` are in bounds.
   */
  lemma TickPositionsInAxis(ebs: BandStructure, kp: KPath, dist: (Vec, Vec) -> real)
    requires UsesPath(Some(kp)) && 1 <= NSegments(kp) <= |kp.specialKpoints|
    requires forall i :: 0 <= i < |kp.ngrids| ==> kp.ngrids[i] >= 1
    ensures XDefined(Some(kp))
    ensures forall i :: 0 <= i <= NSegments(kp) ==>
      0 <= TickPosition(kp.ngrids, i) < |XAxis(ebs, Some(kp), dist)|
  {
    var n := NSegments(kp);
    XPrefixLength(kp, dist, n);
    assert kp.ngrids[..n] == kp.ngrids;
    forall i | 0 <= i <= n ensures 0 <= TickPosition(kp.ngrids, i) <= Sum(kp.ngrids[..n]) - 1 {
      TickPositionsMonotone(kp.ngrids, n, i, i);
    }
  }

  /**
   * With grid counts at least 1 and segments of non-negative length the axis
   * starts at 0, never steps back, and so lies between its first and last value.
   */
  lemma XAxisFromPath(ebs: BandStructure, kp: KPath, dist: (Vec, Vec) -> real)
    requires UsesPath(Some(kp)) && 1 <= NSegments(kp) <= |kp.specialKpoints|
    requires forall i :: 0 <= i < |kp.ngrids| ==> kp.ngrids[i] >= 1
    requires forall i :: 0 <= i < NSegments(kp) ==> SegmentLength(kp, dist, i) >= 0.0
    ensures XDefined(Some(kp))
    ensures var x := XAxis(ebs, Some(kp), dist);
      |x| >= 1 && x[0] == 0.0 && Sorted(x) && forall i :: 0 <= i < |x| ==> x[0] <= x[i] <= x[|x| - 1]
  {
    XPrefixSorted(kp, dist, NSegments(kp));
    XPrefixStartsAtZero(kp, dist, NSegments(kp));
  }

  // ---------------------------------------------------------------------------
  // Handles

  /** The handles of one spin: one per band, in band order. */
  function SpinHandles(spin: nat, nbands: nat): (r: seq<Handle>)
    ensures |r| == nbands && forall b :: 0 <= b < nbands ==> r[b] == Handle(spin, b)
  {
    seq(nbands, b requires 0 <= b < nbands => Handle(spin, b))
  }

  /** The handles `plot_bands` appends: for each spin in order, one per band. */
  function BandHandles(spins: seq<nat>, nbands: nat): seq<Handle>
  {
    if spins == [] then [] else BandHandles(spins[..|spins| - 1], nbands) + SpinHandles(spins[|spins| - 1], nbands)
  }

  /** `plot_bands` adds `len(spins) * nbands` handles. */
  lemma {:induction false} BandHandlesLength(spins: seq<nat>, nbands: nat)
    ensures |BandHandles(spins, nbands)| == |spins| * nbands
  {
    if spins != [] {
      BandHandlesLength(spins[..|spins| - 1], nbands);
      assert |spins| * nbands == (|spins| - 1) * nbands + nbands;
    }
  }

  /** The handle for the i-th spin and band b sits at `i * nbands + b`. */
  lemma {:induction false} BandHandlesAt(spins: seq<nat>, nbands: nat, i: nat, b: nat)
    requires i < |spins| && b < nbands
    ensures i * nbands + b < |BandHandles(spins, nbands)|
    ensures BandHandles(spins, nbands)[i * nbands + b] == Handle(spins[i], b)
  {
    var front := spins[..|spins| - 1];
    BandHandlesLength(front, nbands);
    if i < |front| {
      BandHandlesAt(front, nbands, i, b);
      assert front[i] == spins[i];
    } else {
      assert i * nbands + b == |front| * nbands + b;
    }
  }

  // ---------------------------------------------------------------------------
  // Y ticks and limits

  /**
   * The y-tick table of `set_yticks`: (major, minor) spacings for a window of
   * the given width, or none outside [1, 30).
   */
  function TickSpacing(width: real): Option<(real, real)>
  {
    if 20.0 <= width < 30.0 then Some((5.0, 1.0))
    else if 10.0 <= width < 20.0 then Some((4.0, 0.5))
    else if 5.0 <= width < 10.0 then Some((2.0, 0.2))
    else if 3.0 <= width < 5.0 then Some((1.0, 0.1))
    else if 1.0 <= width < 3.0 then Some((0.5, 0.1))
    else None
  }

  /**
   * The table covers exactly the widths in [1, 30); there it puts 2 to 6 major
   * ticks in the window, each major spacing a whole number (at least 5) of
   * minor spacings (5, 8 or 10 of them), and a wider window never gets a smaller major spacing.
   */
  lemma TickSpacingTable(width: real, wider: real)
    ensures TickSpacing(width).Some? <==> 1.0 <= width < 30.0
    ensures TickSpacing(width).Some? ==>
      var (major, minor) := TickSpacing(width).value;
      0.0 < minor && 2.0 * major <= width < 6.0 * major &&
      (major / minor == 5.0 || major / minor == 8.0 || major / minor == 10.0)
    ensures width <= wider && TickSpacing(width).Some? && TickSpacing(wider).Some? ==>
      TickSpacing(width).value.0 <= TickSpacing(wider).value.0
  {
  }

  /** The least band energy. */
  function Min(s: seq<real>): (m: real)
    requires |s| >= 1
    ensures (exists i :: 0 <= i < |s| && s[i] == m) && forall i :: 0 <= i < |s| ==> m <= s[i]
  {
    if |s| == 1 then s[0] else
      var m := Min(s[..|s| - 1]);
      assert forall i :: 0 <= i < |s| - 1 ==> s[..|s| - 1][i] == s[i];
      if s[|s| - 1] < m then s[|s| - 1] else m
  }

  /** The greatest band energy. */
  function Max(s: seq<real>): (m: real)
    requires |s| >= 1
    ensures (exists i :: 0 <= i < |s| && s[i] == m) && forall i :: 0 <= i < |s| ==> s[i] <= m
  {
    if |s| == 1 then s[0] else
      var m := Max(s[..|s| - 1]);
      assert forall i :: 0 <= i < |s| - 1 ==> s[..|s| - 1][i] == s[i];
      if s[|s| - 1] > m then s[|s| - 1] else m
  }

  function Abs(v: real): real
  {
    if v < 0.0 then -v else v
  }

  /** The default y window as written: the least energy less a tenth of its size, the greatest energy times 1.1. */
  function DefaultYIntervalAsWritten(energies: seq<real>): (w: (real, real))
    requires |energies| >= 1
    ensures forall i :: 0 <= i < |energies| ==> w.0 <= energies[i]
    ensures Max(energies) >= 0.0 ==> forall i :: 0 <= i < |energies| ==> energies[i] <= w.1
    ensures Max(energies) < 0.0 ==> w.1 < Max(energies)
  {
    (Min(energies) - Abs(Min(energies)) * 0.1, Max(energies) * 1.1)
  }

  /** When every energy is negative the window as written ends below the highest band, which is cut off. */
  lemma DefaultYIntervalAsWrittenClips()
    ensures DefaultYIntervalAsWritten([-2.0]).1 < Max([-2.0])
  {
  }

  /** The default y window, widened by a tenth of the size of each end. */
  function DefaultYInterval(energies: seq<real>): (w: (real, real))
    requires |energies| >= 1
    ensures w.0 <= w.1
    ensures forall i :: 0 <= i < |energies| ==> w.0 <= energies[i] <= w.1
    ensures Max(energies) >= 0.0 ==> w == DefaultYIntervalAsWritten(energies)
  {
    (Min(energies) - Abs(Min(energies)) * 0.1, Max(energies) + Abs(Max(energies)) * 0.1)
  }

  /**
   * The locator spacings `set_yticks` settles on: the given pair when both are
   * given, otherwise the table's entry for the width of the window (given, or
   * the default one) when it has one, otherwise what was given.
   */
  function YLocators(major: Option<real>, minor: Option<real>, interval: Option<(real, real)>,
                     energies: seq<real>): (r: (Option<real>, Option<real>))
    requires interval.None? ==> |energies| >= 1
    ensures major.Some? && minor.Some? ==> r == (major, minor)
    ensures (major.None? || minor.None?) ==>
      var w := if interval.Some? then interval.value else DefaultYIntervalAsWritten(energies);
      var spacing := TickSpacing(Abs(w.1 - w.0));
      r == if spacing.Some? then (Some(spacing.value.0), Some(spacing.value.1)) else (major, minor)
  {
    if major.None? || minor.None? then
      var w := if interval.Some? then interval.value else DefaultYIntervalAsWritten(energies);
      match TickSpacing(Abs(w.1 - w.0))
      case Some((ma, mi)) => (Some(ma), Some(mi))
      case None => (major, minor)
    else (major, minor)
  }

  /**
   * Locators are set only with both spacings: when at most one is given and the
   * window's width is outside [1, 30), nothing is set.
   */
  lemma YLocatorsSetWhenBoth(major: Option<real>, minor: Option<real>, interval: Option<(real, real)>,
                             energies: seq<real>)
    requires interval.None? ==> |energies| >= 1
    requires major.None? || minor.None?
    ensures var w := if interval.Some? then interval.value else DefaultYIntervalAsWritten(energies);
      var r := YLocators(major, minor, interval, energies);
      (r.0.Some? && r.1.Some?) <==> 1.0 <= Abs(w.1 - w.0) < 30.0
  {
    var w := if interval.Some? then interval.value else DefaultYIntervalAsWritten(energies);
    TickSpacingTable(Abs(w.1 - w.0), Abs(w.1 - w.0));
  }

  /**
   * Bands between -10 and -8 eV: the window as written is (-11, -8.8), 2.2 wide,
   * and gets spacings (0.5, 0.1); the corrected window is 3.8 wide and gets (1, 0.1).
   */
  lemma DefaultLocatorsFollowTheWrittenWindow()
    ensures YLocators(None, None, None, [-10.0, -8.0]) == (Some(0.5), Some(0.1))
    ensures var w := DefaultYInterval([-10.0, -8.0]); TickSpacing(Abs(w.1 - w.0)) == Some((1.0, 0.1))
  {
    var e := [-10.0, -8.0];
    assert e[..1] == [-10.0];
    assert Min(e) == -10.0 && Max(e) == -8.0;
  }

  // ---------------------------------------------------------------------------
  // The plot

  /** Python indexing `s[i]`, negative indices counting from the end. */
  function PyAt(s: seq<real>, i: int): real
    requires -|s| <= i < |s|
  {
    if i >= 0 then s[i] else s[|s| + i]
  }

  /** Every position is a valid Python index into s. */
  predicate Indexes(positions: seq<int>, s: seq<real>)
  {
    forall i :: 0 <= i < |positions| ==> -|s| <= positions[i] < |s|
  }

  /** The tick positions of a path, as `tick_positions` lists them. */
  function PathTickPositions(kp: KPath): (r: seq<int>)
    requires |kp.ngrids| >= NSegments(kp)
    ensures |r| == NSegments(kp) + 1
  {
    seq(NSegments(kp) + 1, i requires 0 <= i <= NSegments(kp) => TickPosition(kp.ngrids, i))
  }

  /** The tick names of a path, as `tick_names` lists them. */
  function PathTickNames(kp: KPath): (r: seq<string>)
    requires NSegments(kp) >= 1
    ensures |r| == NSegments(kp) + 1
  {
    seq(NSegments(kp) + 1, i requires 0 <= i <= NSegments(kp) => TickNameAt(kp.knames, i))
  }

  /** The x values at the given tick positions, `self.x[tick_positions]`. */
  function TickValues(x: seq<real>, positions: seq<int>): (r: seq<real>)
    requires Indexes(positions, x)
    ensures |r| == |positions|
  {
    seq(|positions|, i requires 0 <= i < |positions| => PyAt(x, positions[i]))
  }

  /**
   * With grid counts at least 1 and segments of non-negative length, the
   * default ticks fall inside the axis, start at 0 and run left to right.
   */
  lemma DefaultTicksOrdered(ebs: BandStructure, kp: KPath, dist: (Vec, Vec) -> real)
    requires UsesPath(Some(kp)) && 1 <= NSegments(kp) <= |kp.specialKpoints|
    requires forall i :: 0 <= i < |kp.ngrids| ==> kp.ngrids[i] >= 1
    requires forall i :: 0 <= i < NSegments(kp) ==> SegmentLength(kp, dist, i) >= 0.0
    ensures XDefined(Some(kp)) && Indexes(PathTickPositions(kp), XAxis(ebs, Some(kp), dist))
    ensures var t := TickValues(XAxis(ebs, Some(kp), dist), PathTickPositions(kp));
      t[0] == 0.0 && Sorted(t)
  {
    var x := XAxis(ebs, Some(kp), dist);
    TickPositionsInAxis(ebs, kp, dist);
    XAxisFromPath(ebs, kp, dist);
    var p := PathTickPositions(kp);
    var t := TickValues(x, p);
    forall i, j | 0 <= i <= j < |t| ensures t[i] <= t[j] {
      TickPositionsMonotone(kp.ngrids, NSegments(kp), i, j);
    }
  }

  /** What the constructor's steps demand of a path given for the ticks. */
  predicate TicksDefined(ebs: BandStructure, kpath: Option<KPath>, dist: (Vec, Vec) -> real)
    requires XDefined(kpath)
  {
    kpath.Some? ==>
      NSegments(kpath.value) >= 1 && |kpath.value.ngrids| >= NSegments(kpath.value) &&
      Indexes(PathTickPositions(kpath.value), XAxis(ebs, kpath, dist))
  }

  /**
   * An `EBSPlot`: the spins it draws, its x axis, the handles of the lines
   * drawn so far, and what it has set on its axes (vertical tick lines, x
   * ticks and labels, y locators, limits).
   */
  class EBSPlot {
    const ebs: BandStructure
    const kpath: Option<KPath>
    /** The norm of the difference of two k-points, `np.linalg.norm`. */
    const dist: (Vec, Vec) -> real
    var spins: seq<nat>
    var nspins: nat
    var handles: seq<Handle>
    var x: seq<real>
    var vlines: seq<real>
    var xticks: seq<real>
    var xticklabels: seq<string>
    var majorLocator: Option<real>
    var minorLocator: Option<real>
    var xlim: (real, real)
    var ylim: (real, real)

    /**
     * `__init__`: spins default to every spin of the band structure and become
     * `[0]` for a non-collinear one, while `nspins` keeps the count requested
     * before that; then the x axis, the ticks and the limits are set up.
     */
    constructor(ebs0: BandStructure, kpath0: Option<KPath>, spins0: Option<seq<nat>>, dist0: (Vec, Vec) -> real)
      requires XDefined(kpath0) && TicksDefined(ebs0, kpath0, dist0)
      requires |XAxis(ebs0, kpath0, dist0)| >= 1 && |ebs0.energies| >= 1
      ensures ebs == ebs0 && kpath == kpath0 && dist == dist0
      ensures nspins == if spins0.Some? then |spins0.value| else ebs0.nspins
      ensures spins == if ebs0.isNonCollinear then [0]
                       else if spins0.Some? then spins0.value
                       else seq(ebs0.nspins, s requires 0 <= s < ebs0.nspins => s)
      ensures handles == []
      ensures x == XAxis(ebs0, kpath0, dist0)
      ensures kpath0.Some? ==>
        vlines == xticks == TickValues(x, PathTickPositions(kpath0.value)) &&
        xticklabels == PathTickNames(kpath0.value)
      ensures (majorLocator, minorLocator) == YLocators(None, None, None, ebs0.energies)
      ensures xlim == (x[0], x[|x| - 1])
      ensures ylim == DefaultYIntervalAsWritten(ebs0.energies)
    {
      ebs := ebs0;
      kpath := kpath0;
      dist := dist0;
      var requested := if spins0.Some? then spins0.value else seq(ebs0.nspins, s requires 0 <= s < ebs0.nspins => s);
      nspins := |requested|;
      spins := if ebs0.isNonCollinear then [0] else requested;
      handles := [];
      vlines := [];
      majorLocator, minorLocator := None, None;
      new;
      x := GetX();
      ghost var r := YLocators(None, None, None, ebs0.energies);
      assert r.0.Some? <==> r.1.Some?;
      InitiatePlotArgs();
    }

    /** `_initiate_plot_args`: the default ticks and limits. */
    method InitiatePlotArgs()
      requires XDefined(kpath) && TicksDefined(ebs, kpath, dist) && x == XAxis(ebs, kpath, dist)
      requires |x| >= 1 && |ebs.energies| >= 1
      modifies this`vlines, this`xticks, this`xticklabels, this`majorLocator, this`minorLocator, this`xlim, this`ylim
      ensures kpath.Some? ==>
        vlines == old(vlines) + TickValues(x, PathTickPositions(kpath.value)) &&
        xticks == TickValues(x, PathTickPositions(kpath.value)) &&
        xticklabels == PathTickNames(kpath.value)
      ensures var r := YLocators(None, None, None, ebs.energies);
        if r.0.Some? && r.1.Some? then majorLocator == r.0 && minorLocator == r.1
        else majorLocator == old(majorLocator) && minorLocator == old(minorLocator)
      ensures xlim == (x[0], x[|x| - 1])
      ensures ylim == DefaultYIntervalAsWritten(ebs.energies)
    {
      SetXTicks(None, None);
      SetYTicks(None, None, None);
      SetXLim(None);
      SetYLim(None);
    }

    /** `_get_x`: lays each segment's linspace after the previous ones, or falls back to k-point indices. */
    method GetX() returns (xs: seq<real>)
      requires XDefined(kpath)
      ensures xs == XAxis(ebs, kpath, dist)
    {
      var pos := 0.0;
      xs := [];
      if kpath.Some? && NSegments(kpath.value) == |kpath.value.ngrids| {
        var kp := kpath.value;
        for isegment := 0 to NSegments(kp)
          invariant pos == SegmentStart(kp, dist, isegment)
          invariant xs == XPrefix(kp, dist, isegment)
        {
          var (kstart, kend) := kp.specialKpoints[isegment];
          var distance := dist(kend, kstart);
          if isegment == 0 {
            xs := Linspace(pos, pos + distance, kp.ngrids[isegment]);
          } else {
            xs := xs + Linspace(pos, pos + distance, kp.ngrids[isegment]);
          }
          pos := pos + distance;
        }
      } else {
        xs := Arange(ebs.nkpoints);
      }
    }

    /** `plot_bands`: one handle per band of each spin, appended after the earlier ones. */
    method PlotBands()
      requires forall i :: 0 <= i < |spins| ==> spins[i] < ebs.nspins
      modifies this`handles
      ensures handles == old(handles) + BandHandles(spins, ebs.nbands)
    {
      ghost var start := handles;
      for i := 0 to |spins|
        invariant handles == start + BandHandles(spins[..i], ebs.nbands)
      {
        var ispin := spins[i];
        assert spins[..i + 1][..i] == spins[..i];
        for iband := 0 to ebs.nbands
          invariant handles == start + BandHandles(spins[..i], ebs.nbands) + SpinHandles(ispin, ebs.nbands)[..iband]
        {
          assert SpinHandles(ispin, ebs.nbands)[..iband + 1] == SpinHandles(ispin, ebs.nbands)[..iband] + [Handle(ispin, iband)];
          handles := handles + [Handle(ispin, iband)];
        }
        assert SpinHandles(ispin, ebs.nbands)[..ebs.nbands] == SpinHandles(ispin, ebs.nbands);
      }
      assert spins[..|spins|] == spins;
    }

    /**
     * `set_xticks`: with a path, a vertical line at the x value of each tick
     * position and the x ticks there, labelled with the tick names; the path's
     * own positions and names stand in for those not given.
     */
    method SetXTicks(tickPositions: Option<seq<int>>, tickNames: Option<seq<string>>)
      requires kpath.Some? && tickPositions.None? ==>
        |kpath.value.ngrids| >= NSegments(kpath.value) && Indexes(PathTickPositions(kpath.value), x)
      requires kpath.Some? && tickPositions.Some? ==> Indexes(tickPositions.value, x)
      requires kpath.Some? && tickNames.None? ==> NSegments(kpath.value) >= 1
      modifies this`vlines, this`xticks, this`xticklabels
      ensures kpath.None? ==> vlines == old(vlines) && xticks == old(xticks) && xticklabels == old(xticklabels)
      ensures kpath.Some? ==>
        var positions := if tickPositions.Some? then tickPositions.value else PathTickPositions(kpath.value);
        vlines == old(vlines) + TickValues(x, positions) && xticks == TickValues(x, positions) &&
        xticklabels == if tickNames.Some? then tickNames.value else PathTickNames(kpath.value)
    {
      if kpath.Some? {
        var positions: seq<int>, names: seq<string>;
        if tickPositions.None? {
          positions := TickPositions(kpath.value);
          assert positions == PathTickPositions(kpath.value);
        } else {
          positions := tickPositions.value;
        }
        if tickNames.None? {
          names := TickNames(kpath.value);
          assert names == PathTickNames(kpath.value);
        } else {
          names := tickNames.value;
        }
        ghost var start := vlines;
        for i := 0 to |positions|
          invariant vlines == start + TickValues(x, positions)[..i]
        {
          assert TickValues(x, positions)[..i + 1] == TickValues(x, positions)[..i] + [PyAt(x, positions[i])];
          vlines := vlines + [PyAt(x, positions[i])];
        }
        assert TickValues(x, positions)[..|positions|] == TickValues(x, positions);
        xticks := TickValues(x, positions);
        xticklabels := names;
      }
    }

    /** `set_yticks`: sets both locators when the spacing rule settles on both, and nothing otherwise. */
    method SetYTicks(major: Option<real>, minor: Option<real>, interval: Option<(real, real)>)
      requires interval.None? ==> |ebs.energies| >= 1
      modifies this`majorLocator, this`minorLocator
      ensures var r := YLocators(major, minor, interval, ebs.energies);
        if r.0.Some? && r.1.Some? then majorLocator == r.0 && minorLocator == r.1
        else majorLocator == old(majorLocator) && minorLocator == old(minorLocator)
    {
      var ma, mi := major, minor;
      if ma.None? || mi.None? {
        var w := if interval.Some? then interval.value else DefaultYIntervalAsWritten(ebs.energies);
        var width := Abs(w.1 - w.0);
        if 20.0 <= width < 30.0 {
          ma, mi := Some(5.0), Some(1.0);
        } else if 10.0 <= width < 20.0 {
          ma, mi := Some(4.0), Some(0.5);
        } else if 5.0 <= width < 10.0 {
          ma, mi := Some(2.0), Some(0.2);
        } else if 3.0 <= width < 5.0 {
          ma, mi := Some(1.0), Some(0.1);
        } else if 1.0 <= width < 3.0 {
          ma, mi := Some(0.5), Some(0.1);
        }
      }
      if ma.Some? && mi.Some? {
        majorLocator := ma;
        minorLocator := mi;
      }
    }

    /** `set_xlim`: the given interval, or the axis from its first to its last value. */
    method SetXLim(interval: Option<(real, real)>)
      requires interval.None? ==> |x| >= 1
      modifies this`xlim
      ensures xlim == if interval.Some? then interval.value else (x[0], x[|x| - 1])
    {
      if interval.Some? {
        xlim := interval.value;
      } else {
        xlim := (x[0], x[|x| - 1]);
      }
    }

    /** `set_ylim`: the given interval, or the default window around every band energy. */
    method SetYLim(interval: Option<(real, real)>)
      requires interval.None? ==> |ebs.energies| >= 1
      modifies this`ylim
      ensures ylim == if interval.Some? then interval.value else DefaultYIntervalAsWritten(ebs.energies)
    {
      if interval.Some? {
        ylim := interval.value;
      } else {
        ylim := DefaultYIntervalAsWritten(ebs.energies);
      }
    }
  }
}
