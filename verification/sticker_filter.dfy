/**
 * Sticker placement: from a face's landmarks and a sticker definition, the
 * quad the sticker is drawn on (in normalised device coordinates) and the
 * pose transform applied to it; and the per-frame schedule of which
 * (face, sticker) pairs are drawn.
 */
module StickerFilter {
  import opened Wrappers
  import opened Faces
  import opened JavaArith
  import opened StickerLoader
  import opened Landmarks

  /** The half-extent of the projection's vertical range, doubled. */
  const PROJECTION_SCALE: real := 2.0
  /** Largest yaw (left/right turn) applied to a sticker, in degrees. */
  const MAX_YAW: real := 50.0
  /** Largest pitch (nod) applied to a sticker, in degrees. */
  const MAX_PITCH: real := 30.0

  datatype Vec = Vec(x: real, y: real)

  /**
   * Where a sticker goes: the landmark centre and the anchor (the centre
   * moved by the sticker's offset), and the quad's half-extents, all in
   * normalised device coordinates.
   */
  datatype Placement = Placement(centre: Vec, anchor: Vec, half: Vec)

  /**
   * The model transform, kept symbolically: `Pose(c, roll, yaw, pitch)`
   * stands for T(c) · Rz(roll) · Ry(yaw) · Rx(pitch) · T(-c).
   */
  datatype Transform = Identity | Pose(centre: Vec, roll: real, yaw: real, pitch: real)

  // ---------------------------------------------------------------------
  // Geometry
  // ---------------------------------------------------------------------

  /** Landmark point `p` in image pixels; landmarks are in [-1, 1]. */
  function PixelPoint(lm: seq<real>, p: int, width: real, height: real): Vec
    requires 0 <= p && 2 * p + 1 < |lm|
  {
    Vec((lm[2 * p] * 0.5 + 0.5) * width, (lm[2 * p + 1] * 0.5 + 0.5) * height)
  }

  /** Every listed point index is a point of `lm`. */
  predicate PointsIn(lm: seq<real>, ps: seq<int>) {
    forall i :: 0 <= i < |ps| ==> 0 <= ps[i] && 2 * ps[i] + 1 < |lm|
  }

  /** `d` is the Euclidean distance between `a` and `b`. */
  ghost predicate IsDistance(d: real, a: Vec, b: Vec) {
    d >= 0.0 && d * d == (a.x - b.x) * (a.x - b.x) + (a.y - b.y) * (a.y - b.y)
  }

  /** Two points twice as far apart are at twice the distance. */
  lemma DistanceDoubles(d: real, a: Vec, b: Vec, d': real, a': Vec, b': Vec)
    requires IsDistance(d, a, b) && IsDistance(d', a', b')
    requires a'.x - b'.x == 2.0 * (a.x - b.x) && a'.y - b'.y == 2.0 * (a.y - b.y)
    ensures d' == 2.0 * d
  {
    assert d' * d' == 4.0 * (d * d);
    assert (d' - 2.0 * d) * (d' + 2.0 * d) == 0.0;
    if d' + 2.0 * d == 0.0 {
      assert d' == 0.0 && d == 0.0;
    }
  }

  /** Sum of the pixel positions of the listed points. */
  function PixelSum(lm: seq<real>, ps: seq<int>, width: real, height: real): Vec
    requires PointsIn(lm, ps)
  {
    if ps == [] then Vec(0.0, 0.0)
    else
      var s := PixelSum(lm, ps[..|ps| - 1], width, height);
      var p := PixelPoint(lm, ps[|ps| - 1], width, height);
      Vec(s.x + p.x, s.y + p.y)
  }

  /** Mean pixel position of the listed points. */
  function PixelMean(lm: seq<real>, ps: seq<int>, width: real, height: real): Vec
    requires PointsIn(lm, ps) && ps != []
  {
    var s := PixelSum(lm, ps, width, height);
    Vec(s.x / |ps| as real, s.y / |ps| as real)
  }

  /** `p` lies in the box [lo, hi]. */
  predicate Within(p: Vec, lo: Vec, hi: Vec) {
    lo.x <= p.x <= hi.x && lo.y <= p.y <= hi.y
  }

  /** Every listed point lies in the box [lo, hi]. */
  ghost predicate InBox(lm: seq<real>, ps: seq<int>, width: real, height: real, lo: Vec, hi: Vec)
    requires PointsIn(lm, ps)
  {
    forall i :: 0 <= i < |ps| ==> Within(PixelPoint(lm, ps[i], width, height), lo, hi)
  }

  /** `s` lies in the box [lo, hi] scaled by `n`. */
  ghost predicate ScaledWithin(s: Vec, n: nat, lo: Vec, hi: Vec) {
    var k := n as real;
    k * lo.x <= s.x <= k * hi.x && k * lo.y <= s.y <= k * hi.y
  }

  /** The sum of `n` points in a box lies in the box scaled by `n`. */
  lemma {:induction false} PixelSumInBox(lm: seq<real>, ps: seq<int>, width: real, height: real, lo: Vec, hi: Vec)
    requires PointsIn(lm, ps) && InBox(lm, ps, width, height, lo, hi)
    ensures ScaledWithin(PixelSum(lm, ps, width, height), |ps|, lo, hi)
  {
    if ps != [] {
      var front := ps[..|ps| - 1];
      assert PointsIn(lm, front);
      assert InBox(lm, front, width, height, lo, hi) by {
        forall i | 0 <= i < |front| ensures Within(PixelPoint(lm, front[i], width, height), lo, hi) {
          assert front[i] == ps[i];
        }
      }
      PixelSumInBox(lm, front, width, height, lo, hi);
      var p := PixelPoint(lm, ps[|ps| - 1], width, height);
      assert Within(p, lo, hi);
      AddInBox(PixelSum(lm, front, width, height), p, |front|, lo, hi);
    }
  }

  /** Adding one point in the box to a sum of `m` such points. */
  lemma AddInBox(s: Vec, p: Vec, m: nat, lo: Vec, hi: Vec)
    requires ScaledWithin(s, m, lo, hi) && Within(p, lo, hi)
    ensures ScaledWithin(Vec(s.x + p.x, s.y + p.y), m + 1, lo, hi)
  {
    var n := (m + 1) as real;
    assert n == m as real + 1.0;
    assert n * lo.x == (m as real) * lo.x + lo.x && n * hi.x == (m as real) * hi.x + hi.x;
    assert n * lo.y == (m as real) * lo.y + lo.y && n * hi.y == (m as real) * hi.y + hi.y;
  }

  /** The centre of points that lie in a box lies in that box. */
  lemma PixelMeanInBox(lm: seq<real>, ps: seq<int>, width: real, height: real, lo: Vec, hi: Vec)
    requires PointsIn(lm, ps) && ps != [] && InBox(lm, ps, width, height, lo, hi)
    ensures Within(PixelMean(lm, ps, width, height), lo, hi)
  {
    PixelSumInBox(lm, ps, width, height, lo, hi);
    var s := PixelSum(lm, ps, width, height);
    var n := |ps| as real;
    DivBetween(s.x, n, lo.x, hi.x);
    DivBetween(s.y, n, lo.y, hi.y);
  }

  lemma DivBetween(s: real, n: real, lo: real, hi: real)
    requires n > 0.0 && n * lo <= s <= n * hi
    ensures lo <= s / n <= hi
  {
  }

  /** Everything a placement needs from a face and a definition. */
  predicate Placeable(lm: seq<real>, data: StickerData, imageHeight: int) {
    && 0 <= data.startIndex && 2 * data.startIndex + 1 < |lm|
    && 0 <= data.endIndex && 2 * data.endIndex + 1 < |lm|
    && PointsIn(lm, data.centerIndexList) && data.centerIndexList != []
    && data.width != 0 && imageHeight != 0
  }

  /**
   * The placement of a sticker whose reference segment is `dist` pixels
   * long and whose landmark centre is `mean`, in pixels. Lengths are
   * measured against the image height.
   */
  function PlaceAround(mean: Vec, data: StickerData, imageHeight: int, ratio: real, dist: real): Placement
    requires data.width != 0 && imageHeight != 0
  {
    var h := imageHeight as real;
    var stickerWidth := dist * data.baseScale;
    var stickerHeight := stickerWidth * data.height as real / data.width as real;
    var centre := Vec((mean.x / h * PROJECTION_SCALE - ratio) * PROJECTION_SCALE,
                      (mean.y / h * PROJECTION_SCALE - 1.0) * PROJECTION_SCALE);
    var ndcWidth := stickerWidth / h * PROJECTION_SCALE;
    var ndcHeight := ndcWidth * data.height as real / data.width as real;
    var offset := Vec(stickerWidth * data.offsetX / h * PROJECTION_SCALE,
                      stickerHeight * data.offsetY / h * PROJECTION_SCALE);
    Placement(centre, Vec(centre.x + offset.x * PROJECTION_SCALE, centre.y + offset.y * PROJECTION_SCALE),
              Vec(ndcWidth, ndcHeight))
  }

  /** The placement of a sticker on the landmarks `lm`: around the mean of its centre points. */
  function Place(lm: seq<real>, data: StickerData, imageWidth: int, imageHeight: int, ratio: real, dist: real): Placement
    requires Placeable(lm, data, imageHeight)
  {
    PlaceAround(PixelMean(lm, data.centerIndexList, imageWidth as real, imageHeight as real), data, imageHeight, ratio, dist)
  }

  /** The quad's width is the sticker's pixel width measured in image heights, and grows linearly with it. */
  lemma PlaceWidth(lm: seq<real>, data: StickerData, imageWidth: int, imageHeight: int, ratio: real, dist: real, k: real)
    requires Placeable(lm, data, imageHeight)
    ensures Place(lm, data, imageWidth, imageHeight, ratio, dist).half.x
         == dist * data.baseScale / imageHeight as real * PROJECTION_SCALE
    ensures Place(lm, data, imageWidth, imageHeight, ratio, k * dist).half.x
         == k * Place(lm, data, imageWidth, imageHeight, ratio, dist).half.x
  {
    var h := imageHeight as real;
    DivIsProduct(dist * data.baseScale, h);
    DivIsProduct(k * dist * data.baseScale, h);
  }

  /** The quad keeps the texture's aspect ratio. */
  lemma PlaceAspect(lm: seq<real>, data: StickerData, imageWidth: int, imageHeight: int, ratio: real, dist: real)
    requires Placeable(lm, data, imageHeight)
    ensures var p := Place(lm, data, imageWidth, imageHeight, ratio, dist);
      p.half.y * data.width as real == p.half.x * data.height as real
  {
  }

  /** Without an offset the anchor is the landmark centre. */
  lemma PlaceZeroOffset(lm: seq<real>, data: StickerData, imageWidth: int, imageHeight: int, ratio: real, dist: real)
    requires Placeable(lm, data, imageHeight) && data.offsetX == 0.0 && data.offsetY == 0.0
    ensures var p := Place(lm, data, imageWidth, imageHeight, ratio, dist); p.anchor == p.centre
  {
  }

  /**
   * The offset moves the anchor by the given fraction of the sticker's own
   * size (in pixels, scaled to device coordinates twice over).
   */
  lemma PlaceOffset(lm: seq<real>, data: StickerData, imageWidth: int, imageHeight: int, ratio: real, dist: real)
    requires Placeable(lm, data, imageHeight)
    ensures var p := Place(lm, data, imageWidth, imageHeight, ratio, dist);
      && p.anchor.x - p.centre.x == data.offsetX * p.half.x * PROJECTION_SCALE
      && p.anchor.y - p.centre.y == data.offsetY * p.half.y * PROJECTION_SCALE
  {
    var mean := PixelMean(lm, data.centerIndexList, imageWidth as real, imageHeight as real);
    PlaceAroundOffset(mean, data, imageHeight, ratio, dist);
  }

  lemma PlaceAroundOffset(mean: Vec, data: StickerData, imageHeight: int, ratio: real, dist: real)
    requires data.width != 0 && imageHeight != 0
    ensures var p := PlaceAround(mean, data, imageHeight, ratio, dist);
      && p.anchor.x - p.centre.x == data.offsetX * p.half.x * PROJECTION_SCALE
      && p.anchor.y - p.centre.y == data.offsetY * p.half.y * PROJECTION_SCALE
  {
    var h, w := imageHeight as real, data.width as real;
    var sw := dist * data.baseScale;
    var sh := sw * data.height as real / w;
    var ndcWidth := sw / h * PROJECTION_SCALE;
    DivIsProduct(sw * data.offsetX, h);
    DivIsProduct(sw, h);
    DivIsProduct(sw * data.height as real, w);
    DivIsProduct(sh * data.offsetY, h);
    DivIsProduct(ndcWidth * data.height as real, w);
  }

  /** Dividing by `c` is multiplying by its inverse. */
  lemma DivIsProduct(a: real, c: real)
    requires c != 0.0
    ensures a / c == a * (1.0 / c)
  {
  }

  /**
   * The quad's vertices in the order bottom-left, bottom-right, top-left,
   * top-right: axis-aligned, centred on the anchor, with the given
   * half-extents.
   */
  function Quad(p: Placement): (q: seq<real>)
    ensures |q| == 8
    ensures q[0] == q[4] && q[2] == q[6] && q[1] == q[3] && q[5] == q[7]
    ensures (q[0] + q[2]) / 2.0 == p.anchor.x && (q[1] + q[5]) / 2.0 == p.anchor.y
    ensures q[2] - q[0] == 2.0 * p.half.x && q[5] - q[1] == 2.0 * p.half.y
  {
    var a, e := p.anchor, p.half;
    [a.x - e.x, a.y - e.y, a.x + e.x, a.y - e.y, a.x - e.x, a.y + e.y, a.x + e.x, a.y + e.y]
  }

  // ---------------------------------------------------------------------
  // Head pose
  // ---------------------------------------------------------------------

  /** An angle whose size exceeds `limit` is cut to `limit`, keeping its sign. */
  function ClampAngle(a: real, limit: real): (r: real)
    requires limit > 0.0
    ensures -limit <= r <= limit
    ensures RealAbs(a) <= limit ==> r == a
    ensures RealAbs(a) > limit ==> RealAbs(r) == limit
    ensures (a > 0.0 <==> r > 0.0) && (a < 0.0 <==> r < 0.0)
  {
    if RealAbs(a) > limit then
      UnitSign(a);
      a / RealAbs(a) * limit
    else a
  }

  /** A non-zero angle divided by its size is its sign. */
  lemma UnitSign(a: real)
    requires a != 0.0
    ensures a > 0.0 ==> a / RealAbs(a) == 1.0
    ensures a < 0.0 ==> a / RealAbs(a) == -1.0
  {
    if a < 0.0 {
      assert RealAbs(a) == -a;
      assert -a * (-1.0) == a;
    } else {
      assert RealAbs(a) == a;
      assert a * 1.0 == a;
    }
  }

  /** The sticker rotation for a face: roll, yaw and pitch, in degrees. */
  function PoseAngles(f: Face): (r: (real, real, real))
    ensures r.0 == f.headZ + 180.0
    ensures -MAX_YAW <= r.1 <= MAX_YAW && -MAX_PITCH <= r.2 <= MAX_PITCH
    ensures RealAbs(1.5 * f.headY) <= MAX_YAW ==> r.1 == 1.5 * f.headY
    ensures RealAbs(1.5 * f.headX) <= MAX_PITCH ==> r.2 == -1.5 * f.headX
  {
    (f.headZ + 180.0, ClampAngle(f.headY * 1.5, MAX_YAW), ClampAngle(-f.headX * 1.5, MAX_PITCH))
  }

  // ---------------------------------------------------------------------
  // The draw schedule
  // ---------------------------------------------------------------------

  /** One draw: the face index handed to the store and the sticker drawn on it. */
  datatype Visit = Visit(face: nat, sticker: nat)

  function Row(f: nat, n: nat): (r: seq<Visit>)
    ensures |r| == n && forall s :: 0 <= s < n ==> r[s] == Visit(f, s)
  {
    seq(n, s requires 0 <= s < n => Visit(f, s))
  }

  /** Faces 0 .. c-1, and for each every sticker 0 .. n-1 in order. */
  function Schedule(c: nat, n: nat): seq<Visit> {
    if c == 0 then [] else Schedule(c - 1, n) + Row(c - 1, n)
  }

  /** Visits in face-major, then sticker order. */
  predicate Before(u: Visit, v: Visit) {
    u.face < v.face || (u.face == v.face && u.sticker < v.sticker)
  }

  /** The schedule visits exactly the pairs below (c, n)... */
  lemma {:induction false} ScheduleVisits(c: nat, n: nat, v: Visit)
    ensures v in Schedule(c, n) <==> v.face < c && v.sticker < n
  {
    if c > 0 {
      ScheduleVisits(c - 1, n, v);
      if v.face == c - 1 && v.sticker < n {
        assert Row(c - 1, n)[v.sticker] == v;
      }
    }
  }

  /** ... each once, in face-major order, `c * n` of them. */
  lemma {:induction false} ScheduleOrdered(c: nat, n: nat)
    ensures |Schedule(c, n)| == c * n
    ensures forall i, j :: 0 <= i < j < |Schedule(c, n)| ==> Before(Schedule(c, n)[i], Schedule(c, n)[j])
  {
    if c > 0 {
      ScheduleOrdered(c - 1, n);
      var front, row := Schedule(c - 1, n), Row(c - 1, n);
      forall v | v in front ensures v.face < c - 1 {
        ScheduleVisits(c - 1, n, v);
      }
      assert (c - 1) * n + n == c * n;
      forall i, j | 0 <= i < j < |front + row| ensures Before((front + row)[i], (front + row)[j]) {
        if j < |front| {
          assert (front + row)[i] == front[i] && (front + row)[j] == front[j];
        } else if i < |front| {
          assert (front + row)[i] == front[i] && front[i] in front;
        }
      }
    }
  }

  /** How many faces a frame draws stickers on. */
  function DrawnFaces(stickers: nat, faces: nat, maxCount: int): (c: nat)
    ensures stickers == 0 || faces == 0 ==> c == 0
    ensures stickers > 0 && faces > 0 ==> c <= faces && (maxCount >= 0 ==> c <= maxCount)
    ensures stickers > 0 && faces > 0 && maxCount >= faces ==> c == faces
    ensures stickers > 0 && faces > 0 && 0 <= maxCount <= faces ==> c == maxCount
  {
    if stickers > 0 && faces > 0 then Max(0, Min(faces, maxCount)) else 0
  }

  // ---------------------------------------------------------------------
  // The filter
  // ---------------------------------------------------------------------

  class FaceStickerFilter {
    /** One loader per sticker of the pack, in manifest order. */
    const loaders: seq<FaceStickerLoader>
    /** The quad most recently placed. */
    const stickerVertices: array<real>
    /** The model transform most recently computed. */
    var model: Transform
    var imageWidth: int
    var imageHeight: int
    /** Width over height of the input image. */
    var ratio: real

    /**
     * A filter for the stickers of a pack whose manifest decoded to
     * `stickers` (`None` when it did not decode). Each loader reads its
     * frames from `<folderPath>/<stickerName>`.
     */
    constructor (stickers: Option<seq<StickerData>>, folderPath: string)
      ensures stickers.None? ==> loaders == []
      ensures stickers.Some? ==> |loaders| == |stickers.value|
      ensures stickers.Some? ==> forall i :: 0 <= i < |loaders| ==>
        && loaders[i].stickerData == Some(stickers.value[i])
        && loaders[i].folderPath == StripFileScheme(folderPath + "/" + stickers.value[i].stickerName)
        && loaders[i].State() == InitialClock()
      ensures stickerVertices.Length == 8 && model == Identity
    {
      var ls: seq<FaceStickerLoader> := [];
      if stickers.Some? {
        var list := stickers.value;
        for i := 0 to |list|
          invariant |ls| == i
          invariant forall j :: 0 <= j < i ==>
            && ls[j].stickerData == Some(list[j])
            && ls[j].folderPath == StripFileScheme(folderPath + "/" + list[j].stickerName)
            && ls[j].State() == InitialClock()
        {
          var loader := new FaceStickerLoader(Some(list[i]), folderPath + "/" + list[i].stickerName);
          ls := ls + [loader];
        }
      }
      loaders := ls;
      stickerVertices := new real[8];
      model := Identity;
      imageWidth, imageHeight, ratio := 0, 0, 0.0;
    }

    /** Records a new input size. */
    method OnInputSizeChanged(width: int, height: int)
      requires height != 0
      modifies this`imageWidth, this`imageHeight, this`ratio
      ensures imageWidth == width && imageHeight == height
      ensures ratio * height as real == width as real
    {
      imageWidth, imageHeight := width, height;
      ratio := width as real / height as real;
    }

    /**
     * Places the sticker `data` on `face`, whose reference segment is
     * `dist` pixels long: writes the quad and the pose transform. A face
     * that is absent or has no landmarks leaves both as they were.
     */
    method CalculateStickerVertices(data: StickerData, face: Option<Face>, dist: real)
      requires stickerVertices.Length == 8
      requires face.Some? && face.value.landmark.Some? ==>
        var lm := face.value.landmark.value;
        && Placeable(lm, data, imageHeight)
        && IsDistance(dist, PixelPoint(lm, data.startIndex, imageWidth as real, imageHeight as real),
                            PixelPoint(lm, data.endIndex, imageWidth as real, imageHeight as real))
      modifies stickerVertices, this`model
      ensures face.None? || face.value.landmark.None? ==>
        stickerVertices[..] == old(stickerVertices[..]) && model == old(model)
      ensures face.Some? && face.value.landmark.Some? ==>
        var p := Place(face.value.landmark.value, data, imageWidth, imageHeight, ratio, dist);
        var angles := PoseAngles(face.value);
        && stickerVertices[..] == Quad(p)
        && model == Pose(p.centre, angles.0, angles.1, angles.2)
    {
      if face.None? || face.value.landmark.None? {
        return;
      }
      var lm := face.value.landmark.value;
      var mean := CentreOf(lm, data.centerIndexList, imageWidth as real, imageHeight as real);
      var p := PlaceAround(mean, data, imageHeight, ratio, dist);
      WriteQuad(stickerVertices, p);
      var angles := PoseAngles(face.value);
      model := Pose(p.centre, angles.0, angles.1, angles.2);
    }

    /**
     * The draws of one frame: for each of the first `DrawnFaces` face
     * indices, every sticker in order. Each draw ticks that sticker's clock
     * and places it on the face the store holds under that index.
     */
    method DrawSchedule(engine: LandmarkEngine) returns (visits: seq<Visit>)
      requires engine.Valid()
      ensures visits == Schedule(DrawnFaces(|loaders|, |engine.Faces()|, if loaders == [] then 0 else loaders[0].MaxCount()), |loaders|)
    {
      visits := [];
      var hasFace := false;
      if |loaders| > 0 {
        hasFace := engine.HasFace();
      }
      assert |loaders| > 0 ==> (hasFace <==> |engine.Faces()| > 0);
      if |loaders| > 0 && hasFace {
        var size := engine.GetFaceSize();
        var faceCount := Min(size, loaders[0].MaxCount());
        var faceIndex := 0;
        while faceIndex < faceCount
          invariant 0 <= faceIndex <= Max(0, faceCount)
          invariant visits == Schedule(faceIndex, |loaders|)
        {
          var row: seq<Visit> := [];
          for stickerIndex := 0 to |loaders|
            invariant row == Row(faceIndex, |loaders|)[..stickerIndex]
          {
            row := row + [Visit(faceIndex, stickerIndex)];
          }
          assert row == Row(faceIndex, |loaders|);
          visits := visits + row;
          faceIndex := faceIndex + 1;
        }
        assert faceIndex == DrawnFaces(|loaders|, size, loaders[0].MaxCount());
      }
    }
  }

  /** Writes the quad of `p` into the vertex array. */
  method WriteQuad(vertices: array<real>, p: Placement)
    requires vertices.Length == 8
    modifies vertices
    ensures vertices[..] == Quad(p)
  {
    vertices[0] := p.anchor.x - p.half.x;
    vertices[1] := p.anchor.y - p.half.y;
    vertices[2] := p.anchor.x + p.half.x;
    vertices[3] := p.anchor.y - p.half.y;
    vertices[4] := p.anchor.x - p.half.x;
    vertices[5] := p.anchor.y + p.half.y;
    vertices[6] := p.anchor.x + p.half.x;
    vertices[7] := p.anchor.y + p.half.y;
    assert vertices[..] == Quad(p);
  }

  /** The centre of the listed points, accumulated point by point. */
  method CentreOf(lm: seq<real>, ps: seq<int>, width: real, height: real) returns (c: Vec)
    requires PointsIn(lm, ps) && ps != []
    ensures c == PixelMean(lm, ps, width, height)
  {
    var x, y := 0.0, 0.0;
    for i := 0 to |ps|
      invariant PointsIn(lm, ps[..i])
      invariant Vec(x, y) == PixelSum(lm, ps[..i], width, height)
    {
      var p := PixelPoint(lm, ps[i], width, height);
      x := x + p.x;
      y := y + p.y;
      assert ps[..i + 1][..i] == ps[..i];
    }
    assert ps[..|ps|] == ps;
    c := Vec(x / |ps| as real, y / |ps| as real);
  }
}
