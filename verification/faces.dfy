/**
 * The two records the sticker pipeline passes around: a detected face and
 * a sticker definition (one entry of a sticker pack's manifest).
 */
module Faces {
  import opened Wrappers

  /** Number of landmark points the detector reports per face. */
  const LANDMARK_POINTS: nat := 212
  /** The same, counted in floats: an (x, y) pair per point. */
  const LANDMARK_FLOATS: nat := 2 * LANDMARK_POINTS
  /** Landmark points plus the 8 derived face points and the 8 image-edge points. */
  const VERTEX_POINTS: nat := 228
  const VERTEX_FLOATS: nat := 2 * VERTEX_POINTS

  /**
   * One detected face. `landmark` is `None` for a face object whose landmark
   * array was never allocated (a Java null); coordinates are normalised to
   * [-1, 1]. `headX`, `headY`, `headZ` are the pitch, yaw and roll estimates.
   */
  datatype Face = Face(landmark: Option<seq<real>>, headX: real, headY: real, headZ: real)

  /** A freshly constructed face: no landmark array, zero angles. */
  function DefaultFace(): (f: Face)
    ensures f.landmark.None?
  {
    Face(None, 0.0, 0.0, 0.0)
  }

  /** A face as the detector stores it: a full landmark array. */
  predicate Tracked(f: Face) {
    f.landmark.Some? && |f.landmark.value| == LANDMARK_FLOATS
  }

  /** One sticker definition. Lengths and times are as in the manifest. */
  datatype StickerData = StickerData(
    centerIndexList: seq<int>,   // landmark points whose mean is the sticker centre
    offsetX: real,               // anchor offset, as a fraction of the sticker width
    offsetY: real,               // anchor offset, as a fraction of the sticker height
    baseScale: real,             // sticker width relative to the reference segment
    startIndex: int,             // reference segment start point
    endIndex: int,               // reference segment end point
    width: int,                  // texture width in pixels
    height: int,                 // texture height in pixels
    frames: int,                 // number of animation frames
    action: int,
    stickerName: string,
    duration: int,               // milliseconds per frame
    stickerLooping: bool,
    maxCount: int                // how many faces the sticker is drawn on at most
  )

  /**
   * The landmark numbering the derived face points use: for each named
   * point, its point index. The numbers themselves belong to the detector
   * SDK and are a parameter of the model.
   */
  datatype FaceLandmarkIndex = FaceLandmarkIndex(
    mouthUpperLipBottom: nat, mouthLowerLipTop: nat, mouthCenter: nat,
    leftEyebrowUpperMiddle: nat, leftEyebrowLowerMiddle: nat, leftEyebrowCenter: nat,
    rightEyebrowUpperMiddle: nat, rightEyebrowLowerMiddle: nat, rightEyebrowCenter: nat,
    eyeCenter: nat, noseLowerMiddle: nat, headCenter: nat,
    leftEyebrowLeftTopCorner: nat, leftHead: nat,
    rightEyebrowRightTopCorner: nat, rightHead: nat,
    leftCheekEdgeCenter: nat, noseLeft: nat, leftCheekCenter: nat,
    rightCheekEdgeCenter: nat, noseRight: nat, rightCheekCenter: nat
  ) {
    /** All points lie among the landmark points and the 8 derived points. */
    predicate Fits() {
      var limit := LANDMARK_POINTS + 8;
      && mouthUpperLipBottom < limit && mouthLowerLipTop < limit && mouthCenter < limit
      && leftEyebrowUpperMiddle < limit && leftEyebrowLowerMiddle < limit && leftEyebrowCenter < limit
      && rightEyebrowUpperMiddle < limit && rightEyebrowLowerMiddle < limit && rightEyebrowCenter < limit
      && eyeCenter < limit && noseLowerMiddle < limit && headCenter < limit
      && leftEyebrowLeftTopCorner < limit && leftHead < limit
      && rightEyebrowRightTopCorner < limit && rightHead < limit
      && leftCheekEdgeCenter < limit && noseLeft < limit && leftCheekCenter < limit
      && rightCheekEdgeCenter < limit && noseRight < limit && rightCheekCenter < limit
    }
  }
}
