/** `VoltageSource`: a named piecewise-linear source built from level changes with a fixed slew. */
module Pwl {
  import opened Wrappers

  /** The constructor's default transition time, one picosecond. */
  const DefaultTtr: real := 0.000000000001

  datatype Point = Point(time: real, volt: real)

  datatype Source = Source(name: string, drive: string, tTr: real, pts: seq<Point>)

  /** What `compile` renders: source name, driven node, DC level and PWL pairs. */
  datatype SourceSpec = SourceSpec(name: string, drive: string, dc: real, pwl: seq<Point>)

  /** `compile` hands back the rendered source and leaves the source itself changed. */
  datatype Compiled = Compiled(src: Source, spec: SourceSpec)

  /** Every source holds at least its initial point. */
  predicate Valid(s: Source) {
    |s.pts| >= 1
  }

  function Last(s: Source): (p: Point)
    requires Valid(s)
  {
    s.pts[|s.pts| - 1]
  }

  /** Point times never decrease along the list. */
  predicate Ordered(pts: seq<Point>) {
    forall i, j :: 0 <= i < j < |pts| ==> pts[i].time <= pts[j].time
  }

  /** `VoltageSource(name, drive, t_tr)`. */
  function NewSource(name: string, drive: Option<string>, tTr: real): (s: Source)
    ensures Valid(s)
    ensures s.pts == [Point(0.0, 0.0)]
    ensures s.name == name && s.tTr == tTr
    ensures drive.None? ==> s.drive == name
    ensures drive.Some? ==> s.drive == drive.value
  {
    Source(name, if drive.Some? then drive.value else name, tTr, [Point(0.0, 0.0)])
  }

  /** `put(v, t)`: a slew point holding the previous level at `t - t_tr`, then `v` at `t`. */
  function Put(s: Source, v: real, t: real): (r: Source)
    requires Valid(s)
    ensures Valid(r)
    ensures r.name == s.name && r.drive == s.drive && r.tTr == s.tTr
    ensures |r.pts| == |s.pts| + 2
    ensures r.pts[..|s.pts|] == s.pts
    ensures r.pts[|s.pts|] == Point(t - s.tTr, Last(s).volt)
    ensures Last(r) == Point(t, v)
  {
    s.(pts := s.pts + [Point(t - s.tTr, Last(s).volt), Point(t, v)])
  }

  /** The source after the level changes `evs` (each a level and a time), applied in order. */
  function PutAll(s: Source, evs: seq<(real, real)>): (r: Source)
    requires Valid(s)
    ensures Valid(r)
    decreases |evs|
  {
    if |evs| == 0 then s
    else
      var e := evs[|evs| - 1];
      Put(PutAll(s, evs[..|evs| - 1]), e.0, e.1)
  }

  /** `compile(t)`: appends a final point at `t` holding the last level, then renders the list. */
  function Compile(s: Source, t: real): (r: Compiled)
    requires Valid(s)
    ensures Valid(r.src)
    ensures r.src.name == s.name && r.src.drive == s.drive && r.src.tTr == s.tTr
    ensures r.src.pts == s.pts + [Point(t, Last(s).volt)]
    ensures r.spec.name == s.name && r.spec.drive == s.drive
    ensures r.spec.dc == s.pts[0].volt
    ensures r.spec.pwl == r.src.pts
  {
    var pts := s.pts + [Point(t, Last(s).volt)];
    Compiled(s.(pts := pts), SourceSpec(s.name, s.drive, pts[0].volt, pts))
  }

  /**
   * After `n` level changes a source has `2n+1` points, its first point untouched,
   * its earlier points kept in place and its last level the last one set.
   */
  lemma {:induction false} PutAllShape(s: Source, evs: seq<(real, real)>)
    requires Valid(s)
    ensures |PutAll(s, evs).pts| == |s.pts| + 2 * |evs|
    ensures PutAll(s, evs).pts[..|s.pts|] == s.pts
    ensures PutAll(s, evs).name == s.name && PutAll(s, evs).drive == s.drive
    ensures PutAll(s, evs).tTr == s.tTr
    ensures |evs| > 0 ==> Last(PutAll(s, evs)) == Point(evs[|evs| - 1].1, evs[|evs| - 1].0)
    ensures |evs| == 0 ==> Last(PutAll(s, evs)) == Last(s)
    decreases |evs|
  {
    if |evs| > 0 {
      var p := PutAll(s, evs[..|evs| - 1]);
      PutAllShape(s, evs[..|evs| - 1]);
      assert PutAll(s, evs).pts[..|s.pts|] == p.pts[..|p.pts|][..|s.pts|];
    }
  }

  /** Rendering a fresh source after `n` level changes gives `2n+2` PWL pairs and DC level 0. */
  lemma CompileFresh(name: string, drive: Option<string>, tTr: real, evs: seq<(real, real)>, t: real)
    ensures |Compile(PutAll(NewSource(name, drive, tTr), evs), t).spec.pwl| == 2 * |evs| + 2
    ensures Compile(PutAll(NewSource(name, drive, tTr), evs), t).spec.pwl[0] == Point(0.0, 0.0)
    ensures Compile(PutAll(NewSource(name, drive, tTr), evs), t).spec.dc == 0.0
    ensures |evs| == 0 ==> Compile(PutAll(NewSource(name, drive, tTr), evs), t).spec.pwl
                           == [Point(0.0, 0.0), Point(t, 0.0)]
    ensures |evs| > 0 ==> Compile(PutAll(NewSource(name, drive, tTr), evs), t).spec.pwl[2 * |evs| + 1]
                          == Point(t, evs[|evs| - 1].0)
  {
    var s := NewSource(name, drive, tTr);
    PutAllShape(s, evs);
    var p := PutAll(s, evs);
    assert p.pts[0] == p.pts[..1][0];
  }

  /**
   * `compile` changes the source it renders: a second call sees the first call's final
   * point and appends another, so rendering twice does not give the same list.
   */
  lemma CompileTwiceGrows(s: Source, t: real)
    requires Valid(s)
    ensures |Compile(Compile(s, t).src, t).spec.pwl| == |Compile(s, t).spec.pwl| + 1
    ensures Compile(Compile(s, t).src, t).spec.pwl != Compile(s, t).spec.pwl
  {
  }

  /** A level change no earlier than the last point plus the slew keeps the points ordered. */
  lemma PutOrdered(s: Source, v: real, t: real)
    requires Valid(s) && Ordered(s.pts)
    requires 0.0 <= s.tTr
    requires Last(s).time <= t - s.tTr
    ensures Ordered(Put(s, v, t).pts)
  {
    var r := Put(s, v, t);
    forall i, j | 0 <= i < j < |r.pts| ensures r.pts[i].time <= r.pts[j].time {
      if j < |s.pts| {
        assert r.pts[i] == s.pts[i] && r.pts[j] == s.pts[j];
      } else if i < |s.pts| {
        assert r.pts[i] == s.pts[i];
        assert s.pts[i].time <= Last(s).time;
      }
    }
  }

  /** Rendering at a time no earlier than the last point keeps the points ordered. */
  lemma CompileOrdered(s: Source, t: real)
    requires Valid(s) && Ordered(s.pts)
    requires Last(s).time <= t
    ensures Ordered(Compile(s, t).spec.pwl)
  {
    var r := Compile(s, t).spec.pwl;
    forall i, j | 0 <= i < j < |r| ensures r[i].time <= r[j].time {
      if j < |s.pts| {
        assert r[i] == s.pts[i] && r[j] == s.pts[j];
      } else {
        assert r[i] == s.pts[i];
        assert s.pts[i].time <= Last(s).time;
      }
    }
  }
}
