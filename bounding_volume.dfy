/**
 * The oriented-box search of `getTransformHelper`: fifteen candidate frames
 * are tried and the first one whose box has the strictly smallest volume below
 * the starting bound 1e13 is kept.
 *
 * Normalising the candidate axes, the centroid and the dot products need square
 * roots and floating point; they stay outside the model. What enters is, per
 * candidate, the coordinates of every vertex along its three axes. The
 * extent scan, with its +-1e10 sentinels, and the selection rule are modelled
 * on reals.
 */
module BoundingVolume {
  import opened Optional

  /** The sentinels the extent scan starts from. */
  const Sentinel: real := 10000000000.0
  /** `volumPrev` before the first candidate. */
  const StartVolume: real := 10000000000000.0

  datatype Vec3 = Vec3(x: real, y: real, z: real)

  /** The fifteen x-axis directions tried, before normalisation, in trial order. */
  const CandidateAxes: seq<Vec3> := [
    Vec3(1.0, 0.0, 0.0), Vec3(1.0, 0.0, 1.0), Vec3(1.0, 1.0, 0.0), Vec3(1.0, 1.0, 1.0),
    Vec3(0.0, 1.0, 1.0), Vec3(1.0, 0.0, 0.5), Vec3(1.0, 0.5, 0.0), Vec3(1.0, 1.0, 0.5),
    Vec3(0.0, 1.0, 0.5), Vec3(0.5, 0.0, 1.0), Vec3(0.5, 1.0, 0.0), Vec3(0.5, 1.0, 1.0),
    Vec3(0.0, 0.5, 1.0), Vec3(0.5, 0.5, 1.0), Vec3(1.0, 0.5, 0.5)]

  /** The vertices of all geometries, centred and expressed along one candidate's three axes. */
  datatype Projected = Projected(xs: seq<real>, ys: seq<real>, zs: seq<real>)

  /** `mab`: the largest coordinate, starting from -1e10 and raised only by strictly larger values. */
  function Upper(s: seq<real>): real
    decreases |s|
  {
    if s == [] then -Sentinel
    else
      var m := Upper(s[..|s| - 1]);
      if s[|s| - 1] > m then s[|s| - 1] else m
  }

  /** `mib`: the smallest coordinate, starting from 1e10 and lowered only by strictly smaller values. */
  function Lower(s: seq<real>): real
    decreases |s|
  {
    if s == [] then Sentinel
    else
      var m := Lower(s[..|s| - 1]);
      if s[|s| - 1] < m then s[|s| - 1] else m
  }

  /** `newDix * newDiy * newDiz`. */
  function BoxVolume(d: Vec3): real
  {
    d.x * d.y * d.z
  }

  /** The volume of one candidate's box. */
  function Volume(p: Projected): real
  {
    BoxVolume(Dims(p))
  }

  /** `(mab + mib) / 2` along each axis: where the box centre sits relative to the centroid. */
  function Shift(p: Projected): Vec3
  {
    Vec3((Upper(p.xs) + Lower(p.xs)) / 2.0, (Upper(p.ys) + Lower(p.ys)) / 2.0, (Upper(p.zs) + Lower(p.zs)) / 2.0)
  }

  /** `mab - mib` along each axis: the box size. */
  function Dims(p: Projected): Vec3
  {
    Vec3(Upper(p.xs) - Lower(p.xs), Upper(p.ys) - Lower(p.ys), Upper(p.zs) - Lower(p.zs))
  }

  /**
   * `mab` bounds every coordinate and the sentinel, and is one of them:
   * the sentinel itself only when no coordinate exceeds it.
   */
  lemma {:induction false} UpperIsMax(s: seq<real>)
    ensures Upper(s) >= -Sentinel
    ensures forall i :: 0 <= i < |s| ==> s[i] <= Upper(s)
    ensures Upper(s) == -Sentinel || exists i :: 0 <= i < |s| && s[i] == Upper(s)
    decreases |s|
  {
    if s != [] {
      var p := s[..|s| - 1];
      UpperIsMax(p);
      if Upper(p) != -Sentinel && s[|s| - 1] <= Upper(p) {
        var i :| 0 <= i < |p| && p[i] == Upper(p);
        assert s[i] == Upper(s);
      }
    }
  }

  /** `mib` is below every coordinate and the sentinel, and is one of them or the sentinel. */
  lemma {:induction false} LowerIsMin(s: seq<real>)
    ensures Lower(s) <= Sentinel
    ensures forall i :: 0 <= i < |s| ==> Lower(s) <= s[i]
    ensures Lower(s) == Sentinel || exists i :: 0 <= i < |s| && s[i] == Lower(s)
    decreases |s|
  {
    if s != [] {
      var p := s[..|s| - 1];
      LowerIsMin(p);
      if Lower(p) != Sentinel && s[|s| - 1] >= Lower(p) {
        var i :| 0 <= i < |p| && p[i] == Lower(p);
        assert s[i] == Lower(s);
      }
    }
  }

  /** The extent scan of one axis (`if (newX > mabX) ...; if (newX < mibX) ...`). */
  method Extents(values: seq<real>) returns (mab: real, mib: real)
    ensures mab == Upper(values) && mib == Lower(values)
  {
    mab, mib := -Sentinel, Sentinel;
    for i := 0 to |values|
      invariant mab == Upper(values[..i]) && mib == Lower(values[..i])
    {
      assert values[..i + 1][..i] == values[..i];
      if values[i] > mab { mab := values[i]; }
      if values[i] < mib { mib := values[i]; }
    }
    assert values[..|values|] == values;
  }

  /** One pass of the candidate loop: the three extent scans and the box they span. */
  method MeasureCandidate(c: Projected) returns (volume: real, dims: Vec3, shift: Vec3)
    ensures volume == Volume(c) && dims == Dims(c) && shift == Shift(c)
  {
    var mabX, mibX := Extents(c.xs);
    var mabY, mibY := Extents(c.ys);
    var mabZ, mibZ := Extents(c.zs);
    dims := Vec3(mabX - mibX, mabY - mibY, mabZ - mibZ);
    volume := BoxVolume(dims);
    shift := Vec3((mabX + mibX) / 2.0, (mabY + mibY) / 2.0, (mabZ + mibZ) / 2.0);
  }

  /** The frame kept by the search: the chosen candidate, the box size along its axes and the centre shift. */
  datatype Helper = Helper(candidate: Option<nat>, dims: Vec3, shift: Vec3)

  /**
   * The selection rule: no frame, with zero size and shift, when no volume is
   * below 1e13; otherwise the first candidate of strictly smallest volume,
   * with its box size and centre shift.
   */
  ghost predicate Chosen(candidates: seq<Projected>, h: Helper)
  {
    && (h.candidate.None? <==> forall r :: 0 <= r < |candidates| ==> Volume(candidates[r]) >= StartVolume)
    && (h.candidate.None? ==> h.dims == Vec3(0.0, 0.0, 0.0) && h.shift == Vec3(0.0, 0.0, 0.0))
    && (h.candidate.Some? ==>
          var k := h.candidate.value;
          && k < |candidates|
          && Volume(candidates[k]) < StartVolume
          && (forall r :: 0 <= r < k ==> Volume(candidates[r]) > Volume(candidates[k]))
          && (forall r :: k < r < |candidates| ==> Volume(candidates[r]) >= Volume(candidates[k]))
          && h.dims == Dims(candidates[k]) && h.shift == Shift(candidates[k]))
  }

  /** The rule leaves no choice: the kept frame is determined by the candidates. */
  lemma ChosenUnique(candidates: seq<Projected>, h1: Helper, h2: Helper)
    requires Chosen(candidates, h1) && Chosen(candidates, h2)
    ensures h1 == h2
  {
    if h1.candidate.Some? && h2.candidate.Some? {
      var k1, k2 := h1.candidate.value, h2.candidate.value;
      var v1, v2 := Volume(candidates[k1]), Volume(candidates[k2]);
      assert k1 < k2 ==> v1 > v2 >= v1;
      assert k2 < k1 ==> v2 > v1 >= v2;
    }
  }

  /**
   * The candidate loop of `getTransformHelper`. Candidate `r` replaces the
   * kept frame only when its volume is strictly below the kept volume, so the
   * result is the FIRST candidate of smallest volume, provided that volume is
   * below 1e13; otherwise nothing is kept and the axes, sizes and shift keep
   * their zero initial values.
   */
  method SelectFrame(candidates: seq<Projected>) returns (h: Helper)
    ensures Chosen(candidates, h)
  {
    var volumPrev := StartVolume;
    h := Helper(None, Vec3(0.0, 0.0, 0.0), Vec3(0.0, 0.0, 0.0));
    for r := 0 to |candidates|
      invariant h.candidate.None? ==> volumPrev == StartVolume && h.dims == Vec3(0.0, 0.0, 0.0) && h.shift == Vec3(0.0, 0.0, 0.0)
      invariant h.candidate.None? <==> forall j :: 0 <= j < r ==> Volume(candidates[j]) >= StartVolume
      invariant h.candidate.Some? ==>
                  var k := h.candidate.value;
                  && k < r
                  && volumPrev == Volume(candidates[k]) < StartVolume
                  && (forall j :: 0 <= j < k ==> Volume(candidates[j]) > volumPrev)
                  && (forall j :: k < j < r ==> Volume(candidates[j]) >= volumPrev)
                  && h.dims == Dims(candidates[k]) && h.shift == Shift(candidates[k])
    {
      var volume, dims, shift := MeasureCandidate(candidates[r]);
      if volume < volumPrev {
        volumPrev := volume;
        h := Helper(Some(r), dims, shift);
      }
    }
  }

  /**
   * With no vertices every scan ends on its sentinels: each extent is
   * -1e10 - 1e10 = -2e10, every volume is -8e30, which is below 1e13, so the
   * first candidate is the one kept and the box has negative size.
   */
  lemma EmptyGeometry(candidates: seq<Projected>)
    requires |candidates| == |CandidateAxes|
    requires forall r :: 0 <= r < |candidates| ==> candidates[r] == Projected([], [], [])
    ensures forall r :: 0 <= r < |candidates| ==> Volume(candidates[r]) == -8000000000000000000000000000000.0
    ensures Volume(candidates[0]) < StartVolume
    ensures Dims(candidates[0]) == Vec3(-20000000000.0, -20000000000.0, -20000000000.0)
    ensures Shift(candidates[0]) == Vec3(0.0, 0.0, 0.0)
    ensures forall h :: Chosen(candidates, h) ==>
              h == Helper(Some(0), Vec3(-20000000000.0, -20000000000.0, -20000000000.0), Vec3(0.0, 0.0, 0.0))
  {
    forall h | Chosen(candidates, h)
      ensures h == Helper(Some(0), Vec3(-20000000000.0, -20000000000.0, -20000000000.0), Vec3(0.0, 0.0, 0.0))
    {
      ChosenUnique(candidates, h, Helper(Some(0), Dims(candidates[0]), Shift(candidates[0])));
    }
  }
}
