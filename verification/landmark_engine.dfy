/**
 * The face landmark store and the vertex builders that read it. Faces are
 * kept by tracking index in a sparse array; the builders write into
 * float arrays their callers own.
 */
module Landmarks {
  import opened Wrappers
  import opened Faces
  import opened SparseSlots
  import opened FaceVertices

  class LandmarkEngine {
    /** The sparse array: increasing face indices beside their faces. */
    var keys: seq<int>
    var faces: seq<Face>
    /** Device orientation: 0 upright, 1 and 2 on a side, 3 upside down. */
    var orientation: int
    /** Whether landmarks come mirrored (front camera preview). */
    var needFlip: bool
    /** The detector's landmark numbering. */
    const landmarkIndex: FaceLandmarkIndex

    ghost predicate Valid()
      reads this
    {
      && Store(keys, faces)
      && landmarkIndex.Fits()
    }

    /** The faces the store holds, by face index. */
    function Faces(): map<int, Face>
      reads this
      requires |keys| == |faces|
    {
      SlotMap(keys, faces)
    }

    /** The landmark array of the face stored under `index`, if any. */
    function Landmark(index: int): (lm: Option<seq<real>>)
      reads this
      requires Valid()
      ensures lm.Some? <==> index in Faces()
      ensures lm.Some? ==> |lm.value| == LANDMARK_FLOATS
    {
      if index in Faces() then
        SlotMapValue(keys, faces, index);
        Faces()[index].landmark
      else None
    }

    constructor (ix: FaceLandmarkIndex)
      requires ix.Fits()
      ensures Valid() && Faces() == map[]
      ensures orientation == 0 && !needFlip && landmarkIndex == ix
    {
      keys, faces := [], [];
      orientation, needFlip := 0, false;
      landmarkIndex := ix;
    }

    method SetOrientation(o: int)
      modifies this`orientation
      ensures orientation == o
    {
      orientation := o;
    }

    method SetNeedFlip(flip: bool)
      modifies this`needFlip
      ensures needFlip == flip
    {
      needFlip := flip;
    }

    /**
     * Drops stale faces: when more than `size` faces are stored, keeps the
     * `size` with the smallest indices.
     */
    method SetFaceSize(size: int)
      requires Valid() && size >= 0
      modifies this`keys, this`faces
      ensures Valid()
      ensures var n := if old(|keys|) > size then size else old(|keys|);
        keys == old(keys)[..n] && faces == old(faces)[..n]
    {
      if |keys| > size {
        StorePrefix(keys, faces, size);
        keys, faces := keys[..size], faces[..size];
      }
    }

    method HasFace() returns (r: bool)
      requires Valid()
      ensures r <==> Faces() != map[]
    {
      SlotMapSize(keys, faces);
      r := |keys| > 0;
      if !r {
        assert |Faces()| == 0;
      }
    }

    method GetFaceSize() returns (n: nat)
      requires Valid()
      ensures n == |Faces()|
    {
      SlotMapSize(keys, faces);
      n := |keys|;
    }

    /** The sparse array's lookup: the face stored under `index`, if any. */
    method Get(index: int) returns (f: Option<Face>)
      requires Valid()
      ensures f.Some? <==> index in Faces()
      ensures f.Some? ==> f.value == Faces()[index]
    {
      var i, found := BinarySearch(keys, index);
      if found {
        SlotMapAt(keys, faces, i);
        f := Some(faces[i]);
      } else {
        f := None;
      }
    }

    /** The face stored under `index`, or a fresh empty face. Stores nothing. */
    method GetOneFace(index: int) returns (f: Face)
      requires Valid()
      ensures index in Faces() ==> f == Faces()[index]
      ensures index !in Faces() ==> f == DefaultFace()
    {
      var found := Get(index);
      f := found.GetOr(DefaultFace());
    }

    /** Stores `f` under `index`, replacing any face stored there. */
    method PutOneFace(index: int, f: Face)
      requires Valid() && Tracked(f)
      modifies this`keys, this`faces
      ensures Valid()
      ensures Faces() == old(Faces())[index := f]
    {
      var i, found := BinarySearch(keys, index);
      if found {
        SlotMapReplace(keys, faces, i, f);
        faces := faces[i := f];
      } else {
        SlotMapInsert(keys, faces, i, index, f);
        keys, faces := InsertAt(keys, i, index), InsertAt(faces, i, f);
      }
    }

    method ClearAll()
      requires Valid()
      modifies this`keys, this`faces
      ensures Valid()
      ensures Faces() == map[]
    {
      keys, faces := [], [];
    }

    // -------------------------------------------------------------------
    // Vertex builders

    /**
     * What the extra-point step leaves in an array holding `v`: unchanged
     * when `index` is not below the number of stored faces, no face is
     * stored under it or the array is too short for the landmarks and the
     * 8 derived points; otherwise the derived face points.
     */
    ghost function ExtraStep(v: seq<real>, index: int): (r: seq<real>)
      reads this
      requires Valid()
      ensures |r| == |v|
    {
      var lm := Landmark(index);
      if index >= |keys| || lm.None? || |lm.value| + 16 > |v| then v
      else ExtraFacePoints(v, lm.value, landmarkIndex)
    }

    method CalculateExtraFacePoints(vp: array<real>, index: int)
      requires Valid()
      modifies vp
      ensures vp[..] == ExtraStep(old(vp[..]), index)
    {
      if index >= |keys| {
        return;
      }
      var face := Get(index);
      if face.None? || |face.value.landmark.value| + 16 > vp.Length {
        return;
      }
      var lm := face.value.landmark.value;
      ArrayCopy(lm, vp);
      WriteExtraPoints(vp, landmarkIndex);
    }

    /**
     * Writes the image-edge points 220..227 for the current orientation,
     * their mirror images, and negates both when the image is flipped.
     */
    method CalculateImageEdgePoints(vp: array<real>)
      modifies vp
      ensures vp[..] == ImageEdgePoints(old(vp[..]), orientation, needFlip)
    {
      if vp.Length < VERTEX_FLOATS {
        return;
      }
      ghost var v := vp[..];
      WriteEdgeTable(vp, orientation);
      MirrorEdgePoints(vp);
      ghost var w := vp[..];
      if needFlip {
        NegateEdgePoints(vp);
      }
      EdgePointsFromWrites(v, w, vp[..], orientation, needFlip);
    }

    /**
     * Builds the vertex and texture arrays for face reshaping: exactly
     * 456 floats each, else nothing is written.
     */
    method UpdateFaceAdjustPoints(vp: array<real>, tp: array<real>, faceIndex: int)
      requires Valid()
      modifies vp, tp
      ensures vp.Length != VERTEX_FLOATS || tp.Length != VERTEX_FLOATS ==>
        vp[..] == old(vp[..]) && tp[..] == old(tp[..])
      ensures vp.Length == VERTEX_FLOATS && tp.Length == VERTEX_FLOATS ==>
        var v := ImageEdgePoints(ExtraStep(old(vp[..]), faceIndex), orientation, needFlip);
        && tp[..] == TextureCoords(v)
        && (vp != tp ==> vp[..] == v)
    {
      if vp.Length != VERTEX_FLOATS || tp.Length != VERTEX_FLOATS {
        return;
      }
      CalculateExtraFacePoints(vp, faceIndex);
      CalculateImageEdgePoints(vp);
      ghost var v := vp[..];
      for i := 0 to vp.Length
        invariant forall j :: 0 <= j < i ==> tp[j] == v[j] * 0.5 + 0.5
        invariant forall j :: i <= j < vp.Length ==> vp[j] == v[j]
        invariant vp != tp ==> vp[..] == v
      {
        tp[i] := vp[i] * 0.5 + 0.5;
      }
      assert tp[..] == TextureCoords(v);
    }

    /** The guard the point getters share: a face is stored under `faceIndex` and it is below the face count. */
    ghost predicate Readable(faceIndex: int)
      reads this
      requires Valid()
    {
      faceIndex < |keys| && faceIndex in Faces()
    }

    /** Lips: the 20 points 84..103, into the first 40 floats. */
    method GetLipsVertices(vp: array<real>, faceIndex: int)
      requires Valid()
      modifies vp
      ensures vp.Length < 40 || !Readable(faceIndex) ==> vp[..] == old(vp[..])
      ensures vp.Length >= 40 && Readable(faceIndex) ==>
        && (forall p :: 0 <= p < 20 ==> Pt(vp[..], p) == Pt(Landmark(faceIndex).value, LipsPoint(p)))
        && (forall j :: 40 <= j < vp.Length ==> vp[j] == old(vp[j]))
    {
      if vp.Length < 40 || faceIndex >= |keys| {
        return;
      }
      var face := Get(faceIndex);
      if face.None? {
        return;
      }
      CopyPoints(vp, face.value.landmark.value, 0, 84, 20);
    }

    /** Bright eyes: points 52..63, 72, 73, 75 and 76, into the first 32 floats. */
    method GetBrightEyeVertices(vp: array<real>, faceIndex: int)
      requires Valid()
      modifies vp
      ensures vp.Length < 32 || !Readable(faceIndex) ==> vp[..] == old(vp[..])
      ensures vp.Length >= 32 && Readable(faceIndex) ==>
        && (forall p :: 0 <= p < 16 ==> Pt(vp[..], p) == Pt(Landmark(faceIndex).value, BrightEyePoint(p)))
        && (forall j :: 32 <= j < vp.Length ==> vp[j] == old(vp[j]))
    {
      if vp.Length < 32 || faceIndex >= |keys| {
        return;
      }
      var face := Get(faceIndex);
      if face.None? {
        return;
      }
      var lm := face.value.landmark.value;
      CopyPoints(vp, lm, 0, 52, 12);
      CopyPoint(vp, lm, 12, 72);
      CopyPoint(vp, lm, 13, 73);
      CopyPoint(vp, lm, 14, 75);
      CopyPoint(vp, lm, 15, 76);
    }

    /** Teeth: the 12 points 84..95 around the mouth, into the first 24 floats. */
    method GetBeautyTeethVertices(vp: array<real>, faceIndex: int)
      requires Valid()
      modifies vp
      ensures vp.Length < 24 || !Readable(faceIndex) ==> vp[..] == old(vp[..])
      ensures vp.Length >= 24 && Readable(faceIndex) ==>
        && (forall p :: 0 <= p < 12 ==> Pt(vp[..], p) == Pt(Landmark(faceIndex).value, TeethPoint(p)))
        && (forall j :: 24 <= j < vp.Length ==> vp[j] == old(vp[j]))
    {
      if vp.Length < 24 || faceIndex >= |keys| {
        return;
      }
      var face := Get(faceIndex);
      if face.None? {
        return;
      }
      CopyPoints(vp, face.value.landmark.value, 0, 84, 12);
    }

    /**
     * Eyes: 38 landmark points, then the points below the eyebrows as the
     * midpoints of points 3 and 44 and of points 29 and 44; 80 floats.
     */
    method GetEyeVertices(vp: array<real>, faceIndex: int)
      requires Valid()
      modifies vp
      ensures vp.Length < 80 || !Readable(faceIndex) ==> vp[..] == old(vp[..])
      ensures vp.Length >= 80 && Readable(faceIndex) ==>
        var lm := Landmark(faceIndex).value;
        && (forall p :: 0 <= p < 38 ==> Pt(vp[..], p) == Pt(lm, EyePoint(p)))
        && Pt(vp[..], 38) == Midpoint(Pt(lm, 3), Pt(lm, 44))
        && Pt(vp[..], 39) == Midpoint(Pt(lm, 29), Pt(lm, 44))
        && (forall j :: 80 <= j < vp.Length ==> vp[j] == old(vp[j]))
    {
      if vp.Length < 80 || faceIndex >= |keys| {
        return;
      }
      var face := Get(faceIndex);
      if face.None? {
        return;
      }
      WriteEyeVertices(vp, face.value.landmark.value);
    }
  }

  /** The sparse array's invariant, with every stored face carrying its landmarks. */
  ghost predicate Store(keys: seq<int>, faces: seq<Face>) {
    && |keys| == |faces|
    && Increasing(keys)
    && (forall i :: 0 <= i < |faces| ==> Tracked(faces[i]))
  }

  /** Truncating a store to its first `n` entries leaves a store. */
  lemma StorePrefix(keys: seq<int>, faces: seq<Face>, n: nat)
    requires Store(keys, faces) && n <= |keys|
    ensures Store(keys[..n], faces[..n])
  {
    SlotMapPrefix(keys, faces, n);
    var faces' := faces[..n];
    forall i | 0 <= i < n ensures Tracked(faces'[i]) {
      assert faces'[i] == faces[i];
    }
  }

  /**
   * The edge step's result: table entry (or old slots) at 220..223, its
   * negation at 224..227, all of them negated under a flip.
   */
  lemma EdgePointsFromWrites(v: seq<real>, w: seq<real>, r: seq<real>, orientation: int, needFlip: bool)
    requires |v| == |w| == |r| >= VERTEX_FLOATS
    requires forall j :: 0 <= j < |v| && !(EDGE_START <= j < VERTEX_FLOATS) ==> w[j] == v[j]
    requires forall i :: 0 <= i < 8 ==> w[EDGE_START + i] == EdgeBase(v, orientation)[i]
    requires forall j :: MIRROR_START <= j < VERTEX_FLOATS ==> w[j] == -w[j - 8]
    requires forall j :: 0 <= j < |v| && !(EDGE_START <= j < VERTEX_FLOATS) ==> r[j] == w[j]
    requires forall j :: EDGE_START <= j < VERTEX_FLOATS ==> r[j] == if needFlip then -w[j] else w[j]
    ensures r == ImageEdgePoints(v, orientation, needFlip)
  {
    var e := ImageEdgePoints(v, orientation, needFlip);
    forall j | 0 <= j < |v| ensures r[j] == e[j] {
      if EDGE_START <= j < MIRROR_START {
        assert w[EDGE_START + (j - EDGE_START)] == EdgeBase(v, orientation)[j - EDGE_START];
      } else if MIRROR_START <= j < VERTEX_FLOATS {
        assert w[EDGE_START + (j - MIRROR_START)] == EdgeBase(v, orientation)[j - MIRROR_START];
      }
    }
  }

  /** Points 224..227 are points 220..223 negated. */
  method MirrorEdgePoints(vp: array<real>)
    requires vp.Length >= VERTEX_FLOATS
    modifies vp
    ensures forall j :: 0 <= j < vp.Length && !(MIRROR_START <= j < VERTEX_FLOATS) ==> vp[j] == old(vp[j])
    ensures forall j :: MIRROR_START <= j < VERTEX_FLOATS ==> vp[j] == -vp[j - 8]
  {
    vp[448] := -vp[440];
    vp[449] := -vp[441];
    vp[450] := -vp[442];
    vp[451] := -vp[443];
    vp[452] := -vp[444];
    vp[453] := -vp[445];
    vp[454] := -vp[446];
    vp[455] := -vp[447];
  }

  /** The flip: negates both coordinates of points 220..227. */
  method NegateEdgePoints(vp: array<real>)
    requires vp.Length >= VERTEX_FLOATS
    modifies vp
    ensures forall j :: 0 <= j < vp.Length && !(EDGE_START <= j < VERTEX_FLOATS) ==> vp[j] == old(vp[j])
    ensures forall j :: EDGE_START <= j < VERTEX_FLOATS ==> vp[j] == -old(vp[j])
  {
    for i := 0 to 8
      invariant forall j :: 0 <= j < vp.Length && !(EDGE_START <= j < EDGE_START + 2 * i) ==> vp[j] == old(vp[j])
      invariant forall j :: EDGE_START <= j < EDGE_START + 2 * i ==> vp[j] == -old(vp[j])
    {
      vp[(220 + i) * 2] := -vp[(220 + i) * 2];
      vp[(220 + i) * 2 + 1] := -vp[(220 + i) * 2 + 1];
    }
  }

  /** Writes points 220..223 from the orientation's table entry; any other orientation writes nothing. */
  method WriteEdgeTable(vp: array<real>, orientation: int)
    requires vp.Length >= VERTEX_FLOATS
    modifies vp
    ensures forall j :: 0 <= j < vp.Length && !(EDGE_START <= j < MIRROR_START) ==> vp[j] == old(vp[j])
    ensures forall i :: 0 <= i < 8 ==> vp[EDGE_START + i] == EdgeBase(old(vp[..]), orientation)[i]
  {
    if orientation == 0 {
      vp[440] := 0.0;
      vp[441] := 1.0;
      vp[442] := 1.0;
      vp[443] := 1.0;
      vp[444] := 1.0;
      vp[445] := 0.0;
      vp[446] := 1.0;
      vp[447] := -1.0;
    } else if orientation == 1 {
      vp[440] := 1.0;
      vp[441] := 0.0;
      vp[442] := 1.0;
      vp[443] := -1.0;
      vp[444] := 0.0;
      vp[445] := -1.0;
      vp[446] := -1.0;
      vp[447] := -1.0;
    } else if orientation == 2 {
      vp[440] := -1.0;
      vp[441] := 0.0;
      vp[442] := -1.0;
      vp[443] := 1.0;
      vp[444] := 0.0;
      vp[445] := 1.0;
      vp[446] := 1.0;
      vp[447] := 1.0;
    } else if orientation == 3 {
      vp[440] := 0.0;
      vp[441] := -1.0;
      vp[442] := -1.0;
      vp[443] := -1.0;
      vp[444] := -1.0;
      vp[445] := 0.0;
      vp[446] := -1.0;
      vp[447] := 1.0;
    }
  }

  /**
   * The 8 derived face points, written in order into an array whose front
   * holds the landmarks.
   */
  method WriteExtraPoints(vp: array<real>, ix: FaceLandmarkIndex)
    requires ix.Fits() && vp.Length >= 440
    modifies vp
    ensures InArray(Derivations(ix), vp.Length)
    ensures vp[..] == Derive(old(vp[..]), Derivations(ix))
  {
    var ds := Derivations(ix);
    DerivationsInArray(ix, vp.Length);
    // mouth centre, then the two eyebrow centres
    WriteDerived(vp, ds, 0);
    WriteDerived(vp, ds, 1);
    WriteDerived(vp, ds, 2);
    // forehead centre, then its two sides
    WriteDerived(vp, ds, 3);
    WriteDerived(vp, ds, 4);
    WriteDerived(vp, ds, 5);
    // the two cheek centres
    WriteDerived(vp, ds, 6);
    WriteDerived(vp, ds, 7);
    assert ds[0..] == ds && ds[8..] == [];
  }

  /**
   * Copies `count` points of `lm`, starting at point `from`, to the points
   * of `vp` starting at point `to`.
   */
  method CopyPoints(vp: array<real>, lm: seq<real>, to: nat, from: nat, count: nat)
    requires 2 * (to + count) <= vp.Length && 2 * (from + count) <= |lm|
    modifies vp
    ensures forall j :: 2 * to <= j < 2 * (to + count) ==> vp[j] == lm[j - 2 * to + 2 * from]
    ensures forall j :: 0 <= j < vp.Length && !(2 * to <= j < 2 * (to + count)) ==> vp[j] == old(vp[j])
  {
    for i := from to from + count
      invariant forall j :: 2 * to <= j < 2 * (to + i - from) ==> vp[j] == lm[j - 2 * to + 2 * from]
      invariant forall j :: 0 <= j < vp.Length && !(2 * to <= j < 2 * (to + i - from)) ==> vp[j] == old(vp[j])
    {
      vp[(i - from + to) * 2] := lm[i * 2];
      vp[(i - from + to) * 2 + 1] := lm[i * 2 + 1];
    }
  }

  /** Copies point `from` of `lm` to point `to` of `vp`. */
  method CopyPoint(vp: array<real>, lm: seq<real>, to: nat, from: nat)
    requires 2 * to + 1 < vp.Length && 2 * from + 1 < |lm|
    modifies vp
    ensures vp[2 * to] == lm[2 * from] && vp[2 * to + 1] == lm[2 * from + 1]
    ensures forall j :: 0 <= j < vp.Length && j != 2 * to && j != 2 * to + 1 ==> vp[j] == old(vp[j])
  {
    vp[to * 2] := lm[from * 2];
    vp[to * 2 + 1] := lm[from * 2 + 1];
  }

  /** The 40 eye points of `lm`, into the first 80 floats of `vp`. */
  method WriteEyeVertices(vp: array<real>, lm: seq<real>)
    requires vp.Length >= 80 && |lm| == LANDMARK_FLOATS
    modifies vp
    ensures forall p :: 0 <= p < 38 ==> Pt(vp[..], p) == Pt(lm, EyePoint(p))
    ensures Pt(vp[..], 38) == Midpoint(Pt(lm, 3), Pt(lm, 44))
    ensures Pt(vp[..], 39) == Midpoint(Pt(lm, 29), Pt(lm, 44))
    ensures forall j :: 80 <= j < vp.Length ==> vp[j] == old(vp[j])
  {
    CopyEyeRuns(vp, lm);
    CopyPoint(vp, lm, 34, 75);
    CopyPoint(vp, lm, 35, 76);
    CopyPoint(vp, lm, 36, 78);
    CopyPoint(vp, lm, 37, 79);
    vp[38 * 2] := (lm[3 * 2] + lm[44 * 2]) * 0.5;
    vp[38 * 2 + 1] := (lm[3 * 2 + 1] + lm[44 * 2 + 1]) * 0.5;
    vp[39 * 2] := (lm[29 * 2] + lm[44 * 2]) * 0.5;
    vp[39 * 2 + 1] := (lm[29 * 2 + 1] + lm[44 * 2 + 1]) * 0.5;
    EyeTable(vp[..], lm);
  }

  /** The four runs of eye points: points 0..3, 29..33, 42..44 and 52..73, to points 0..33. */
  method CopyEyeRuns(vp: array<real>, lm: seq<real>)
    requires vp.Length >= 80 && |lm| == LANDMARK_FLOATS
    modifies vp
    ensures forall j :: 0 <= j < 8 ==> vp[j] == lm[j]
    ensures forall j :: 8 <= j < 18 ==> vp[j] == lm[j + 50]
    ensures forall j :: 18 <= j < 24 ==> vp[j] == lm[j + 66]
    ensures forall j :: 24 <= j < 68 ==> vp[j] == lm[j + 80]
    ensures forall j :: 68 <= j < vp.Length ==> vp[j] == old(vp[j])
  {
    CopyPoints(vp, lm, 0, 0, 4);
    CopyPoints(vp, lm, 4, 29, 5);
    CopyPoints(vp, lm, 9, 42, 3);
    CopyPoints(vp, lm, 12, 52, 22);
  }

  /** The eye runs, copied float by float, are the eye point table. */
  lemma EyeTable(v: seq<real>, lm: seq<real>)
    requires |v| >= 80 && |lm| == LANDMARK_FLOATS
    requires forall j :: 0 <= j < 8 ==> v[j] == lm[j]
    requires forall j :: 8 <= j < 18 ==> v[j] == lm[j + 50]
    requires forall j :: 18 <= j < 24 ==> v[j] == lm[j + 66]
    requires forall j :: 24 <= j < 68 ==> v[j] == lm[j + 80]
    requires Pt(v, 34) == Pt(lm, 75) && Pt(v, 35) == Pt(lm, 76)
    requires Pt(v, 36) == Pt(lm, 78) && Pt(v, 37) == Pt(lm, 79)
    ensures forall p :: 0 <= p < 38 ==> Pt(v, p) == Pt(lm, EyePoint(p))
  {
    forall p | 0 <= p < 38 ensures Pt(v, p) == Pt(lm, EyePoint(p)) {
      if p < 34 {
        assert v[2 * p] == lm[2 * EyePoint(p)];
        assert v[2 * p + 1] == lm[2 * EyePoint(p) + 1];
      }
    }
  }

  /** System.arraycopy of a whole source array to the front of `dst`. */
  method ArrayCopy(src: seq<real>, dst: array<real>)
    requires |src| <= dst.Length
    modifies dst
    ensures dst[..] == src + old(dst[..])[|src|..]
  {
    for i := 0 to |src|
      invariant forall j :: 0 <= j < i ==> dst[j] == src[j]
      invariant forall j :: i <= j < dst.Length ==> dst[j] == old(dst[j])
    {
      dst[i] := src[i];
    }
    assert dst[..] == src + old(dst[..])[|src|..];
  }

  /**
   * Writes derivation `d`, the `k`th of `ds`, into `vp`: applying the
   * derivations from `k` on to the old contents is applying those after
   * `k` to the new contents.
   */
  method WriteDerived(vp: array<real>, ds: seq<Derivation>, k: nat)
    requires k < |ds| && InArray(ds, vp.Length)
    modifies vp
    ensures InArray(ds[k..], vp.Length) && InArray(ds[k + 1..], vp.Length)
    ensures Derive(old(vp[..]), ds[k..]) == Derive(vp[..], ds[k + 1..])
  {
    ghost var v := vp[..];
    var d := ds[k];
    var x, y;
    if d.Centre? {
      x, y := (vp[2 * d.a] + vp[2 * d.b]) / 2.0, (vp[2 * d.a + 1] + vp[2 * d.b + 1]) / 2.0;
    } else {
      x, y := vp[2 * d.a] * 2.0 - vp[2 * d.b], vp[2 * d.a + 1] * 2.0 - vp[2 * d.b + 1];
    }
    assert (x, y) == DerivedValue(v, d);
    vp[2 * d.target] := x;
    vp[2 * d.target + 1] := y;
    assert vp[..] == SetPoint(v, d.target, DerivedValue(v, d));
    DeriveFrom(v, ds, k);
  }
}
