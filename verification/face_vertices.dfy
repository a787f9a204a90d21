/**
 * What the landmark engine writes into the vertex arrays its callers hand
 * it, as functions of the arrays' old contents: the derived face points,
 * the image-edge points, the texture coordinates and the fixed point
 * selections for lips, teeth and eyes.
 */
module FaceVertices {
  import opened Wrappers
  import opened Faces

  // ---------------------------------------------------------------------
  // Derived face points

  /** `v` with point `p` (floats 2p and 2p+1) set to `xy`. */
  function SetPoint(v: seq<real>, p: nat, xy: (real, real)): (r: seq<real>)
    requires 2 * p + 1 < |v|
    ensures |r| == |v| && r[2 * p] == xy.0 && r[2 * p + 1] == xy.1
    ensures forall j :: 0 <= j < |v| && j != 2 * p && j != 2 * p + 1 ==> r[j] == v[j]
  {
    v[2 * p := xy.0][2 * p + 1 := xy.1]
  }

  /** Point `p` of a flat coordinate array. */
  function Pt(v: seq<real>, p: nat): (real, real)
    requires 2 * p + 1 < |v|
  {
    (v[2 * p], v[2 * p + 1])
  }

  /** The midpoint of two points. */
  function Midpoint(p: (real, real), q: (real, real)): (m: (real, real))
    ensures m.0 - p.0 == q.0 - m.0 && m.1 - p.1 == q.1 - m.1
  {
    ((p.0 + q.0) / 2.0, (p.1 + q.1) / 2.0)
  }

  /**
   * Linear extrapolation `2 * eye - nose`, per coordinate: the point whose
   * midpoint with the nose is the eye.
   */
  function Extrapolate(eye: (real, real), nose: (real, real)): (r: (real, real))
    ensures Midpoint(nose, r) == eye
  {
    (eye.0 * 2.0 - nose.0, eye.1 * 2.0 - nose.1)
  }

  /**
   * One derived point: the point it is written to and the two points it is
   * computed from, either as their centre or, for the forehead, as the
   * reflection `2 * a - b`.
   */
  datatype Derivation =
    | Centre(target: nat, a: nat, b: nat)
    | Beyond(target: nat, a: nat, b: nat)

  /** The 8 derived points, in the order the engine writes them. */
  function Derivations(ix: FaceLandmarkIndex): (ds: seq<Derivation>)
    ensures |ds| == 8
  {
    [ Centre(ix.mouthCenter, ix.mouthUpperLipBottom, ix.mouthLowerLipTop),
      Centre(ix.leftEyebrowCenter, ix.leftEyebrowUpperMiddle, ix.leftEyebrowLowerMiddle),
      Centre(ix.rightEyebrowCenter, ix.rightEyebrowUpperMiddle, ix.rightEyebrowLowerMiddle),
      Beyond(ix.headCenter, ix.eyeCenter, ix.noseLowerMiddle),
      Centre(ix.leftHead, ix.leftEyebrowLeftTopCorner, ix.headCenter),
      Centre(ix.rightHead, ix.rightEyebrowRightTopCorner, ix.headCenter),
      Centre(ix.leftCheekCenter, ix.leftCheekEdgeCenter, ix.noseLeft),
      Centre(ix.rightCheekCenter, ix.rightCheekEdgeCenter, ix.noseRight) ]
  }

  /** Every point a derivation in `ds` touches is a point of an `n`-float array. */
  predicate InArray(ds: seq<Derivation>, n: nat) {
    forall i :: 0 <= i < |ds| ==> 2 * ds[i].target + 1 < n && 2 * ds[i].a + 1 < n && 2 * ds[i].b + 1 < n
  }

  /** No derivation in `ds` writes point `q`. */
  predicate Untouched(ds: seq<Derivation>, q: nat) {
    forall i :: 0 <= i < |ds| ==> ds[i].target != q
  }

  /** No two derivations in `ds` write the same point. */
  predicate Distinct(ds: seq<Derivation>) {
    forall i, j :: 0 <= i < j < |ds| ==> ds[i].target != ds[j].target
  }

  /** Every derivation in `ds` writes a point numbered `m` or above. */
  predicate TargetsFrom(ds: seq<Derivation>, m: nat) {
    forall i :: 0 <= i < |ds| ==> ds[i].target >= m
  }

  /** With distinct targets, no derivation after `k` writes the point of `k`. */
  lemma DistinctAfter(ds: seq<Derivation>, k: nat)
    requires Distinct(ds) && k < |ds|
    ensures Untouched(ds[k + 1..], ds[k].target)
  {
    var tail := ds[k + 1..];
    forall i | 0 <= i < |tail| ensures tail[i].target != ds[k].target {
      assert tail[i] == ds[k + 1 + i];
    }
  }

  /** The value a derivation computes from the array as it stands. */
  function DerivedValue(v: seq<real>, d: Derivation): (real, real)
    requires 2 * d.a + 1 < |v| && 2 * d.b + 1 < |v|
  {
    match d
    case Centre(_, a, b) => Midpoint(Pt(v, a), Pt(v, b))
    case Beyond(_, a, b) => Extrapolate(Pt(v, a), Pt(v, b))
  }

  /**
   * The array after the derivations in `ds` are applied one after the
   * other; each reads the array as the previous ones left it.
   */
  function Derive(v: seq<real>, ds: seq<Derivation>): (r: seq<real>)
    requires InArray(ds, |v|)
    ensures |r| == |v|
    decreases |ds|
  {
    if ds == [] then v
    else Derive(SetPoint(v, ds[0].target, DerivedValue(v, ds[0])), ds[1..])
  }

  /** A float of a point no derivation writes keeps its value. */
  lemma {:induction false} DeriveKeeps(v: seq<real>, ds: seq<Derivation>, q: nat, j: nat)
    requires InArray(ds, |v|) && j < |v| && (j == 2 * q || j == 2 * q + 1) && Untouched(ds, q)
    ensures Derive(v, ds)[j] == v[j]
    decreases |ds|
  {
    if ds != [] {
      var w := SetPoint(v, ds[0].target, DerivedValue(v, ds[0]));
      assert ds[0].target != q;
      assert Untouched(ds[1..], q) by {
        forall i | 0 <= i < |ds| - 1 ensures ds[1..][i].target != q {
          assert ds[1..][i] == ds[i + 1];
        }
      }
      DeriveKeeps(w, ds[1..], q, j);
    }
  }

  /**
   * Applying the derivations from `k` on is applying derivation `k` to the
   * array, then the ones after it.
   */
  lemma DeriveFrom(v: seq<real>, ds: seq<Derivation>, k: nat)
    requires InArray(ds, |v|) && k < |ds|
    ensures InArray(ds[k..], |v|) && InArray(ds[k + 1..], |v|)
    ensures Derive(v, ds[k..]) == Derive(SetPoint(v, ds[k].target, DerivedValue(v, ds[k])), ds[k + 1..])
  {
    InArrayParts(ds, |v|, k);
    InArrayParts(ds, |v|, k + 1);
    assert ds[k..][0] == ds[k] && ds[k..][1..] == ds[k + 1..];
  }

  /** A point no derivation writes keeps its value. */
  lemma DeriveKeepsPoint(v: seq<real>, ds: seq<Derivation>, q: nat)
    requires InArray(ds, |v|) && 2 * q + 1 < |v| && Untouched(ds, q)
    ensures Pt(Derive(v, ds), q) == Pt(v, q)
  {
    DeriveKeeps(v, ds, q, 2 * q);
    DeriveKeeps(v, ds, q, 2 * q + 1);
  }

  /** Applying `ds` is applying its first `k` derivations, then the rest. */
  lemma {:induction false} DeriveSplit(v: seq<real>, ds: seq<Derivation>, k: nat)
    requires InArray(ds, |v|) && k <= |ds|
    ensures InArray(ds[..k], |v|) && InArray(ds[k..], |v|)
    ensures Derive(v, ds) == Derive(Derive(v, ds[..k]), ds[k..])
    decreases k
  {
    InArrayParts(ds, |v|, k);
    if k > 0 {
      var w := SetPoint(v, ds[0].target, DerivedValue(v, ds[0]));
      InArrayParts(ds, |v|, 1);
      DeriveSplit(w, ds[1..], k - 1);
      assert ds[1..][..k - 1] == ds[..k][1..];
      assert ds[1..][k - 1..] == ds[k..];
    } else {
      assert ds[..0] == [];
      assert ds[0..] == ds;
    }
  }

  /** Both parts of `ds`, cut at `k`, touch only points of the array. */
  lemma InArrayParts(ds: seq<Derivation>, n: nat, k: nat)
    requires InArray(ds, n) && k <= |ds|
    ensures InArray(ds[..k], n) && InArray(ds[k..], n)
  {
    forall i | 0 <= i < k ensures ds[..k][i] == ds[i] { }
    forall i | 0 <= i < |ds| - k ensures ds[k..][i] == ds[k + i] { }
  }

  /**
   * When no later derivation overwrites the point of derivation `k`, the
   * point ends up holding what derivation `k` computed from the array the
   * earlier derivations left.
   */
  lemma DeriveLast(v: seq<real>, ds: seq<Derivation>, k: nat)
    requires InArray(ds, |v|) && k < |ds|
    requires Untouched(ds[k + 1..], ds[k].target)
    ensures InArray(ds[..k], |v|)
    ensures Pt(Derive(v, ds), ds[k].target) == DerivedValue(Derive(v, ds[..k]), ds[k])
  {
    DeriveSplit(v, ds, k);
    var w := Derive(v, ds[..k]);
    var rest := ds[k..];
    assert rest[0] == ds[k] && rest[1..] == ds[k + 1..];
    var w' := SetPoint(w, ds[k].target, DerivedValue(w, ds[k]));
    InArrayParts(rest, |v|, 1);
    assert Derive(w, rest) == Derive(w', rest[1..]);
    DeriveKeepsPoint(w', rest[1..], ds[k].target);
  }

  /**
   * If, besides, no earlier derivation wrote the two points derivation `k`
   * reads, the value is computed from the original array.
   */
  lemma DeriveFinal(v: seq<real>,
                    ds: seq<Derivation>, k: nat)
    requires InArray(ds, |v|) && k < |ds|
    requires Untouched(ds[k + 1..], ds[k].target)
    requires Untouched(ds[..k], ds[k].a) && Untouched(ds[..k], ds[k].b)
    ensures Pt(Derive(v, ds), ds[k].target) == DerivedValue(v, ds[k])
  {
    DeriveLast(v, ds, k);
    DeriveKeepsPoint(v, ds[..k], ds[k].a);
    DeriveKeepsPoint(v, ds[..k], ds[k].b);
  }

  /**
   * With distinct targets, all numbered `m` or above, a derivation reading
   * two points below `m` ends up holding the value computed from the
   * original array.
   */
  lemma DeriveFinalBelow(v: seq<real>,
                         ds: seq<Derivation>, k: nat, m: nat)
    requires InArray(ds, |v|) && k < |ds| && Distinct(ds) && TargetsFrom(ds, m)
    requires ds[k].a < m && ds[k].b < m
    ensures Pt(Derive(v, ds), ds[k].target) == DerivedValue(v, ds[k])
  {
    DistinctAfter(ds, k);
    assert Untouched(ds[..k], ds[k].a) && Untouched(ds[..k], ds[k].b) by {
      forall i | 0 <= i < k ensures ds[..k][i].target >= m {
        assert ds[..k][i] == ds[i];
      }
    }
    DeriveFinal(v, ds, k);
  }

  /**
   * The vertex array after the landmarks are copied to its front and the 8
   * derived points are written.
   */
  function ExtraFacePoints(v: seq<real>, lm: seq<real>, ix: FaceLandmarkIndex): (r: seq<real>)
    requires |lm| == LANDMARK_FLOATS && |lm| + 16 <= |v| && ix.Fits()
    ensures |r| == |v|
  {
    DerivationsInArray(ix, |v|);
    Derive(lm + v[|lm|..], Derivations(ix))
  }

  /** With every point numbered below 220, the derivations fit a 440-float array. */
  lemma DerivationsInArray(ix: FaceLandmarkIndex, n: nat)
    requires ix.Fits() && n >= 440
    ensures InArray(Derivations(ix), n)
  {
  }

  /** The point written by one of the 8 derivation steps. */
  predicate IsDerived(ix: FaceLandmarkIndex, p: nat) {
    p in {ix.mouthCenter, ix.leftEyebrowCenter, ix.rightEyebrowCenter, ix.headCenter,
          ix.leftHead, ix.rightHead, ix.leftCheekCenter, ix.rightCheekCenter}
  }

  /**
   * The numbering the derivation is meant for: the 8 derived points are
   * distinct slots after the detector's points, and every point they are
   * derived from is a detector point.
   */
  predicate Separated(ix: FaceLandmarkIndex) {
    // every derived point lies after the detector's points
    && ix.mouthCenter >= LANDMARK_POINTS && ix.leftEyebrowCenter >= LANDMARK_POINTS && ix.rightEyebrowCenter >= LANDMARK_POINTS && ix.headCenter >= LANDMARK_POINTS
    && ix.leftHead >= LANDMARK_POINTS && ix.rightHead >= LANDMARK_POINTS && ix.leftCheekCenter >= LANDMARK_POINTS && ix.rightCheekCenter >= LANDMARK_POINTS
    // every source point is a detector point
    && ix.mouthUpperLipBottom < LANDMARK_POINTS && ix.mouthLowerLipTop < LANDMARK_POINTS && ix.leftEyebrowUpperMiddle < LANDMARK_POINTS
    && ix.leftEyebrowLowerMiddle < LANDMARK_POINTS && ix.rightEyebrowUpperMiddle < LANDMARK_POINTS && ix.rightEyebrowLowerMiddle < LANDMARK_POINTS
    && ix.eyeCenter < LANDMARK_POINTS && ix.noseLowerMiddle < LANDMARK_POINTS && ix.leftEyebrowLeftTopCorner < LANDMARK_POINTS
    && ix.rightEyebrowRightTopCorner < LANDMARK_POINTS && ix.leftCheekEdgeCenter < LANDMARK_POINTS && ix.noseLeft < LANDMARK_POINTS
    && ix.rightCheekEdgeCenter < LANDMARK_POINTS && ix.noseRight < LANDMARK_POINTS
    // the derived points are pairwise distinct
    && ix.mouthCenter != ix.leftEyebrowCenter && ix.mouthCenter != ix.rightEyebrowCenter && ix.mouthCenter != ix.headCenter && ix.mouthCenter != ix.leftHead && ix.mouthCenter != ix.rightHead && ix.mouthCenter != ix.leftCheekCenter && ix.mouthCenter != ix.rightCheekCenter
    && ix.leftEyebrowCenter != ix.rightEyebrowCenter && ix.leftEyebrowCenter != ix.headCenter && ix.leftEyebrowCenter != ix.leftHead && ix.leftEyebrowCenter != ix.rightHead && ix.leftEyebrowCenter != ix.leftCheekCenter && ix.leftEyebrowCenter != ix.rightCheekCenter
    && ix.rightEyebrowCenter != ix.headCenter && ix.rightEyebrowCenter != ix.leftHead && ix.rightEyebrowCenter != ix.rightHead && ix.rightEyebrowCenter != ix.leftCheekCenter && ix.rightEyebrowCenter != ix.rightCheekCenter
    && ix.headCenter != ix.leftHead && ix.headCenter != ix.rightHead && ix.headCenter != ix.leftCheekCenter && ix.headCenter != ix.rightCheekCenter
    && ix.leftHead != ix.rightHead && ix.leftHead != ix.leftCheekCenter && ix.leftHead != ix.rightCheekCenter
    && ix.rightHead != ix.leftCheekCenter && ix.rightHead != ix.rightCheekCenter
    && ix.leftCheekCenter != ix.rightCheekCenter
  }

  /** A separated numbering gives derivations with distinct targets after the detector's points. */
  lemma SeparatedDerivations(ix: FaceLandmarkIndex)
    requires Separated(ix)
    ensures Distinct(Derivations(ix)) && TargetsFrom(Derivations(ix), LANDMARK_POINTS)
  {
    var ds := Derivations(ix);
    var ts := [ix.mouthCenter, ix.leftEyebrowCenter, ix.rightEyebrowCenter, ix.headCenter,
               ix.leftHead, ix.rightHead, ix.leftCheekCenter, ix.rightCheekCenter];
    assert forall i :: 0 <= i < 8 ==> ds[i].target == ts[i];
    forall i, j | 0 <= i < j < 8 ensures ts[i] != ts[j] {
      assert i == 0 || i == 1 || i == 2 || i == 3 || i == 4 || i == 5 || i == 6;
      assert j == 1 || j == 2 || j == 3 || j == 4 || j == 5 || j == 6 || j == 7;
    }
  }

  /**
   * Deriving the extra points keeps every float that is not a derived point:
   * the landmarks are copied unchanged and the tail of the array is kept.
   */
  lemma ExtraPointsKeepOthers(v: seq<real>, lm: seq<real>, ix: FaceLandmarkIndex,
                              j: nat)
    requires |lm| == LANDMARK_FLOATS && |lm| + 16 <= |v| && ix.Fits()
    requires j < |v| && !IsDerived(ix, j / 2)
    ensures ExtraFacePoints(v, lm, ix)[j] == if j < |lm| then lm[j] else v[j]
  {
    var v0 := lm + v[|lm|..];
    var ds := Derivations(ix);
    DerivationsInArray(ix, |v|);
    assert Untouched(ds, j / 2);
    DeriveKeeps(v0, ds, j / 2, j);
  }

  /** Copying the landmarks to the front of the array puts detector point `q` there. */
  lemma FrontKept(lm: seq<real>, v: seq<real>, q: nat)
    requires |lm| == LANDMARK_FLOATS && |lm| <= |v| && q < LANDMARK_POINTS
    ensures Pt(lm + v[|lm|..], q) == Pt(lm, q)
  {
  }

  /**
   * With a separated numbering the mouth centre is the centre of two
   * detector points ...
   */
  lemma ExtraPointsMouth(v: seq<real>, lm: seq<real>, ix: FaceLandmarkIndex)
    requires |lm| == LANDMARK_FLOATS && |lm| + 16 <= |v| && ix.Fits() && Separated(ix)
    ensures Pt(ExtraFacePoints(v, lm, ix), ix.mouthCenter)
         == Midpoint(Pt(lm, ix.mouthUpperLipBottom), Pt(lm, ix.mouthLowerLipTop))
  {
    SeparatedDerivations(ix);
    DerivationsInArray(ix, |v|);
    DeriveFinalBelow(lm + v[|lm|..], Derivations(ix), 0, LANDMARK_POINTS);
    FrontKept(lm, v, ix.mouthUpperLipBottom);
    FrontKept(lm, v, ix.mouthLowerLipTop);
  }

  /** ... so are the eyebrow centres ... */
  lemma ExtraPointsBrows(v: seq<real>, lm: seq<real>, ix: FaceLandmarkIndex)
    requires |lm| == LANDMARK_FLOATS && |lm| + 16 <= |v| && ix.Fits() && Separated(ix)
    ensures var r := ExtraFacePoints(v, lm, ix);
      && Pt(r, ix.leftEyebrowCenter) == Midpoint(Pt(lm, ix.leftEyebrowUpperMiddle), Pt(lm, ix.leftEyebrowLowerMiddle))
      && Pt(r, ix.rightEyebrowCenter) == Midpoint(Pt(lm, ix.rightEyebrowUpperMiddle), Pt(lm, ix.rightEyebrowLowerMiddle))
  {
    var v0 := lm + v[|lm|..];
    var ds := Derivations(ix);
    SeparatedDerivations(ix);
    DerivationsInArray(ix, |v|);
    DeriveFinalBelow(v0, ds, 1, LANDMARK_POINTS);
    FrontKept(lm, v, ix.leftEyebrowUpperMiddle);
    FrontKept(lm, v, ix.leftEyebrowLowerMiddle);
    DeriveFinalBelow(v0, ds, 2, LANDMARK_POINTS);
    FrontKept(lm, v, ix.rightEyebrowUpperMiddle);
    FrontKept(lm, v, ix.rightEyebrowLowerMiddle);
  }

  /** ... the forehead centre is `2 * eyeCenter - noseLowerMiddle` ... */
  lemma ExtraPointsHead(v: seq<real>, lm: seq<real>, ix: FaceLandmarkIndex)
    requires |lm| == LANDMARK_FLOATS && |lm| + 16 <= |v| && ix.Fits() && Separated(ix)
    ensures Pt(ExtraFacePoints(v, lm, ix), ix.headCenter)
         == Extrapolate(Pt(lm, ix.eyeCenter), Pt(lm, ix.noseLowerMiddle))
  {
    SeparatedDerivations(ix);
    DerivationsInArray(ix, |v|);
    DeriveFinalBelow(lm + v[|lm|..], Derivations(ix), 3, LANDMARK_POINTS);
    FrontKept(lm, v, ix.eyeCenter);
    FrontKept(lm, v, ix.noseLowerMiddle);
  }

  /**
   * ... the left forehead side is centred on that new forehead point, not
   * on whatever the slot held before ...
   */
  lemma ExtraPointsLeftHead(v: seq<real>, lm: seq<real>, ix: FaceLandmarkIndex)
    requires |lm| == LANDMARK_FLOATS && |lm| + 16 <= |v| && ix.Fits() && Separated(ix)
    ensures var head := Extrapolate(Pt(lm, ix.eyeCenter), Pt(lm, ix.noseLowerMiddle));
      Pt(ExtraFacePoints(v, lm, ix), ix.leftHead)
      == Midpoint(Pt(lm, ix.leftEyebrowLeftTopCorner), head)
  {
    FrontKept(lm, v, ix.eyeCenter);
    FrontKept(lm, v, ix.noseLowerMiddle);
    FrontKept(lm, v, ix.leftEyebrowLeftTopCorner);
    SeparatedDerivations(ix);
    DerivationsInArray(ix, |v|);
    HeadSideReadsHead(lm + v[|lm|..], Derivations(ix), 4, LANDMARK_POINTS);
  }

  /** ... and so is the right one ... */
  lemma ExtraPointsRightHead(v: seq<real>, lm: seq<real>, ix: FaceLandmarkIndex)
    requires |lm| == LANDMARK_FLOATS && |lm| + 16 <= |v| && ix.Fits() && Separated(ix)
    ensures var head := Extrapolate(Pt(lm, ix.eyeCenter), Pt(lm, ix.noseLowerMiddle));
      Pt(ExtraFacePoints(v, lm, ix), ix.rightHead)
      == Midpoint(Pt(lm, ix.rightEyebrowRightTopCorner), head)
  {
    FrontKept(lm, v, ix.eyeCenter);
    FrontKept(lm, v, ix.noseLowerMiddle);
    FrontKept(lm, v, ix.rightEyebrowRightTopCorner);
    SeparatedDerivations(ix);
    DerivationsInArray(ix, |v|);
    HeadSideReadsHead(lm + v[|lm|..], Derivations(ix), 5, LANDMARK_POINTS);
  }

  /**
   * Forehead side `k` (4 or 5) reads the forehead centre derivation 3 wrote
   * and a detector point no earlier derivation wrote.
   */
  lemma HeadSideReadsHead(v: seq<real>,
                          ds: seq<Derivation>, k: nat, m: nat)
    requires InArray(ds, |v|) && 4 <= k < |ds| && Distinct(ds) && TargetsFrom(ds, m)
    requires ds[3].Beyond? && ds[3].a < m && ds[3].b < m
    requires ds[k].Centre? && ds[k].a < m && ds[k].b == ds[3].target
    ensures var head := DerivedValue(v, ds[3]);
      Pt(Derive(v, ds), ds[k].target) == Midpoint(Pt(v, ds[k].a), head)
  {
    assert InArray(ds[..k], |v|) by { DeriveSplit(v, ds, k); }
    DistinctAfter(ds, k);
    var w := Derive(v, ds[..k]);
    var head := DerivedValue(v, ds[3]);
    assert Pt(Derive(v, ds), ds[k].target) == DerivedValue(w, ds[k]) by {
      DeriveLast(v, ds, k);
    }
    assert Pt(w, ds[k].b) == head by {
      var pre := ds[..k];
      assert Distinct(pre) && TargetsFrom(pre, m) by {
        forall i | 0 <= i < k ensures pre[i] == ds[i] { }
      }
      DeriveFinalBelow(v, pre, 3, m);
    }
    assert Pt(w, ds[k].a) == Pt(v, ds[k].a) by {
      assert Untouched(ds[..k], ds[k].a) by {
        forall i | 0 <= i < k ensures ds[..k][i].target >= m {
          assert ds[..k][i] == ds[i];
        }
      }
      DeriveKeepsPoint(v, ds[..k], ds[k].a);
    }
    assert DerivedValue(w, ds[k]) == Midpoint(Pt(v, ds[k].a), head);
  }

  /** ... and the cheek centres are centres of detector points. */
  lemma ExtraPointsCheeks(v: seq<real>, lm: seq<real>, ix: FaceLandmarkIndex)
    requires |lm| == LANDMARK_FLOATS && |lm| + 16 <= |v| && ix.Fits() && Separated(ix)
    ensures var r := ExtraFacePoints(v, lm, ix);
      && Pt(r, ix.leftCheekCenter) == Midpoint(Pt(lm, ix.leftCheekEdgeCenter), Pt(lm, ix.noseLeft))
      && Pt(r, ix.rightCheekCenter) == Midpoint(Pt(lm, ix.rightCheekEdgeCenter), Pt(lm, ix.noseRight))
  {
    var v0 := lm + v[|lm|..];
    var ds := Derivations(ix);
    SeparatedDerivations(ix);
    DerivationsInArray(ix, |v|);
    DeriveFinalBelow(v0, ds, 6, LANDMARK_POINTS);
    FrontKept(lm, v, ix.leftCheekEdgeCenter);
    FrontKept(lm, v, ix.noseLeft);
    DeriveFinalBelow(v0, ds, 7, LANDMARK_POINTS);
    FrontKept(lm, v, ix.rightCheekEdgeCenter);
    FrontKept(lm, v, ix.noseRight);
  }

  // ---------------------------------------------------------------------
  // Image-edge points (points 220..227, floats 440..455)

  const EDGE_START: nat := 2 * 220
  const MIRROR_START: nat := 2 * 224

  /** The 4 edge points written for each of the 4 device orientations. */
  function EdgeTable(orientation: int): (t: Option<seq<real>>)
    ensures t.Some? ==> |t.value| == 8
    ensures t.Some? <==> 0 <= orientation <= 3
  {
    if orientation == 0 then Some([0.0, 1.0, 1.0, 1.0, 1.0, 0.0, 1.0, -1.0])
    else if orientation == 1 then Some([1.0, 0.0, 1.0, -1.0, 0.0, -1.0, -1.0, -1.0])
    else if orientation == 2 then Some([-1.0, 0.0, -1.0, 1.0, 0.0, 1.0, 1.0, 1.0])
    else if orientation == 3 then Some([0.0, -1.0, -1.0, -1.0, -1.0, 0.0, -1.0, 1.0])
    else None
  }

  /**
   * The vertex array after the image-edge points are written: the table
   * entry of the orientation (or, for any other orientation, what the slots
   * held), then its point mirror, both negated when the image is flipped.
   * Arrays shorter than 456 floats are left alone.
   */
  function ImageEdgePoints(v: seq<real>, orientation: int, needFlip: bool): (r: seq<real>)
    ensures |r| == |v|
  {
    if |v| < VERTEX_FLOATS then v
    else
      var base := EdgeBase(v, orientation);
      var sign := if needFlip then -1.0 else 1.0;
      seq(|v|, j requires 0 <= j < |v| =>
        if EDGE_START <= j < MIRROR_START then sign * base[j - EDGE_START]
        else if MIRROR_START <= j < VERTEX_FLOATS then -sign * base[j - MIRROR_START]
        else v[j])
  }

  /** The 4 edge points before the flip: the orientation's table entry, or what the slots held. */
  function EdgeBase(v: seq<real>, orientation: int): (b: seq<real>)
    requires |v| >= VERTEX_FLOATS
    ensures |b| == 8
  {
    match EdgeTable(orientation)
    case Some(t) => t
    case None => v[EDGE_START..MIRROR_START]
  }

  /** Points 224..227 are the negation of points 220..223, flipped or not. */
  lemma EdgePointsMirrored(v: seq<real>, orientation: int, needFlip: bool, i: nat)
    requires |v| >= VERTEX_FLOATS && i < 8
    ensures ImageEdgePoints(v, orientation, needFlip)[MIRROR_START + i]
         == -ImageEdgePoints(v, orientation, needFlip)[EDGE_START + i]
  {
  }

  /** Nothing outside floats 440..455 changes. */
  lemma EdgePointsKeepOthers(v: seq<real>, orientation: int, needFlip: bool, j: nat)
    requires j < |v| && !(EDGE_START <= j < VERTEX_FLOATS)
    ensures ImageEdgePoints(v, orientation, needFlip)[j] == v[j]
  {
  }

  /**
   * For an orientation outside 0..3 (the camera code stores 270) the edge
   * points keep their earlier values, negated only by the flip.
   */
  lemma EdgePointsUnknownOrientation(v: seq<real>, orientation: int, needFlip: bool, i: nat)
    requires |v| >= VERTEX_FLOATS && i < 8 && !(0 <= orientation <= 3)
    ensures ImageEdgePoints(v, orientation, needFlip)[EDGE_START + i]
         == if needFlip then -v[EDGE_START + i] else v[EDGE_START + i]
  {
  }

  // ---------------------------------------------------------------------
  // Texture coordinates

  /** Maps normalised coordinates in [-1, 1] to texture coordinates in [0, 1]. */
  function TextureCoords(v: seq<real>): (r: seq<real>)
    ensures |r| == |v|
    ensures forall i :: 0 <= i < |v| ==> r[i] == v[i] * 0.5 + 0.5
  {
    seq(|v|, i requires 0 <= i < |v| => v[i] * 0.5 + 0.5)
  }

  lemma TextureCoordsInUnitRange(v: seq<real>, i: nat)
    requires i < |v| && -1.0 <= v[i] <= 1.0
    ensures 0.0 <= TextureCoords(v)[i] <= 1.0
  {
  }

  // ---------------------------------------------------------------------
  // Fixed point selections. Each maps an output point to a landmark point.

  /** Lips: output point p is landmark point 84 + p, for 20 points. */
  function LipsPoint(p: nat): nat
    requires p < 20
  {
    84 + p
  }

  /** Teeth: the 12 points around the mouth, landmark points 84..95. */
  function TeethPoint(p: nat): nat
    requires p < 12
  {
    84 + p
  }

  /** Bright eyes: landmark points 52..63, then 72, 73, 75 and 76. */
  function BrightEyePoint(p: nat): nat
    requires p < 16
  {
    if p < 12 then 52 + p
    else if p < 14 then 60 + p
    else 61 + p
  }

  /**
   * Eyes: landmark points 0..3, 29..33, 42..44, 52..73, then 75, 76, 78 and
   * 79; output points 38 and 39 are midpoints and are not in this table.
   */
  function EyePoint(p: nat): nat
    requires p < 38
  {
    if p < 4 then p
    else if p < 9 then p + 25
    else if p < 12 then p + 33
    else if p < 34 then p + 40
    else if p < 36 then p + 41
    else p + 42
  }

  /** Each table reads every landmark point at most once, in increasing order. */
  lemma PointTablesIncreasing(p: nat, q: nat)
    requires p < q
    ensures q < 20 ==> LipsPoint(p) < LipsPoint(q)
    ensures q < 12 ==> TeethPoint(p) < TeethPoint(q)
    ensures q < 16 ==> BrightEyePoint(p) < BrightEyePoint(q)
    ensures q < 38 ==> EyePoint(p) < EyePoint(q)
  {
  }
}
