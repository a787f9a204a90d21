# Face sticker core, modelled in Dafny

This project models the core of an Android augmented-reality face sticker
app. A camera front end picks preview sizes, orientation, focus and zoom.
A landmark engine stores the tracked faces (212 landmark points each) in a
sparse array keyed by face index, and derives from them the vertex arrays
the beauty and reshaping shaders use. A sticker filter places each sticker
of a pack on each face. A quad is sized from a reference segment of the
face and centred on the mean of chosen landmarks, then rotated by the head
pose. A per-sticker loader runs the sticker's animation clock and keeps
one texture per sticker. The GL surface view sizes itself to the preview's
aspect and reads frames back as bitmaps. Two small utilities of the
detector module are modelled as well: a bounded FIFO queue and the cache
of the frame preprocessing pipeline.

Layout, one module per file:

- `wrappers.dfy` (`Wrappers`): `Option`.
- `java_arith.dfy` (`JavaArith`): Java's integer operators. `/` and `%` truncate toward zero, and an `(int)` cast wraps at 32 bits.
- `faces.dfy` (`Faces`): the face record, the sticker definition and the detector's landmark numbering.
- `sparse_slots.dfy` (`SparseSlots`): the sparse array behind the landmark store, kept as increasing keys beside values, with binary search.
- `face_vertices.dfy` (`FaceVertices`): what the vertex builders write, as functions of the array's old contents.
- `landmark_engine.dfy` (`Landmarks`): the landmark store, `LandmarkEngine`, whose methods write into caller-owned `array<real>`s.
- `sticker_loader.dfy` (`StickerLoader`): the animation clock. `Tick` is one tick as a function; the class performs it field by field.
- `sticker_filter.dfy` (`StickerFilter`): sticker placement, the pose angles and the draw schedule.
- `limited_queue.dfy` (`BoundedQueue`): `LimitedSizeQueue`.
- `image_processor.dfy` (`ImageProcessing`): `ImageProcessorUtil`.
- `egl_camera.dfy` (`Camera`): `EGLCamera`.
- `surface_view.dfy` (`SurfaceView`): `CameraGLSurfaceView`.

Java `float` is modelled as `real`. Java `int` arithmetic is exact except
where the code relies on truncation or wrap-around; there `JavaArith`
spells it out.

## Model

| member | source | states |
|---|---|---|
| Faces.DefaultFace | app/src/main/java/com/ynsuper/arfacesohasdk/facepoint/LandmarkEngine.java:84-86 | A face created because none was stored has no landmark array. |
| SparseSlots.SlotMapAt | app/src/main/java/com/ynsuper/arfacesohasdk/facepoint/LandmarkEngine.java:83 | With increasing keys, the key at position i maps to the value at position i, so the lookup by position finds the stored face. |
| SparseSlots.SlotMapSize | app/src/main/java/com/ynsuper/arfacesohasdk/facepoint/LandmarkEngine.java:106-108 | The number of stored entries is the number of faces in the map. |
| SparseSlots.SlotMapPrefix | app/src/main/java/com/ynsuper/arfacesohasdk/facepoint/LandmarkEngine.java:58-60 | Keeping the first n entries keeps n faces, keeps each kept face unchanged, and drops only face indices larger than every kept one. |
| SparseSlots.SlotMapReplace | app/src/main/java/com/ynsuper/arfacesohasdk/facepoint/LandmarkEngine.java:97 | Overwriting a stored face changes the map at that face index only. |
| SparseSlots.SlotMapInsert | app/src/main/java/com/ynsuper/arfacesohasdk/facepoint/LandmarkEngine.java:97 | Inserting a new index where the keys stay increasing adds exactly that face to the map. |
| SparseSlots.BinarySearch | app/src/main/java/com/ynsuper/arfacesohasdk/facepoint/LandmarkEngine.java:83 | found holds exactly when the key is stored, and then i is its position. Otherwise i is the insertion point: smaller keys lie before it, larger keys after it. |
| Landmarks.LandmarkEngine.constructor | app/src/main/java/com/ynsuper/arfacesohasdk/facepoint/LandmarkEngine.java:30-33 | A new engine holds no faces, is upright and is not flipped. |
| Landmarks.LandmarkEngine.Landmark | app/src/main/java/com/ynsuper/arfacesohasdk/facepoint/LandmarkEngine.java:135-136 | A landmark array exists exactly for the stored face indices, and it always has 424 floats. |
| Landmarks.LandmarkEngine.SetOrientation | app/src/main/java/com/ynsuper/arfacesohasdk/facepoint/LandmarkEngine.java:39-41 | Stores the orientation. |
| Landmarks.LandmarkEngine.SetNeedFlip | app/src/main/java/com/ynsuper/arfacesohasdk/facepoint/LandmarkEngine.java:47-49 | Stores the flip flag. |
| Landmarks.LandmarkEngine.SetFaceSize | app/src/main/java/com/ynsuper/arfacesohasdk/facepoint/LandmarkEngine.java:55-62 | Keeps the first `size` entries when more are stored, otherwise keeps all; the store stays a valid sparse array. |
| Landmarks.LandmarkEngine.HasFace | app/src/main/java/com/ynsuper/arfacesohasdk/facepoint/LandmarkEngine.java:68-74 | True exactly when some face is stored. |
| Landmarks.LandmarkEngine.GetFaceSize | app/src/main/java/com/ynsuper/arfacesohasdk/facepoint/LandmarkEngine.java:106-108 | The number of stored faces. |
| Landmarks.LandmarkEngine.Get | app/src/main/java/com/ynsuper/arfacesohasdk/facepoint/LandmarkEngine.java:83 | Some face exactly when the index is stored, and then the face stored under it. |
| Landmarks.LandmarkEngine.GetOneFace | app/src/main/java/com/ynsuper/arfacesohasdk/facepoint/LandmarkEngine.java:80-89 | The stored face, or a fresh face without landmarks when none is stored. |
| Landmarks.LandmarkEngine.PutOneFace | app/src/main/java/com/ynsuper/arfacesohasdk/facepoint/LandmarkEngine.java:95-99 | The face map afterwards is the old map with the index bound to the new face; the keys stay increasing. |
| Landmarks.LandmarkEngine.ClearAll | app/src/main/java/com/ynsuper/arfacesohasdk/facepoint/LandmarkEngine.java:121-125 | No face remains. |
| Landmarks.LandmarkEngine.CalculateExtraFacePoints | app/src/main/java/com/ynsuper/arfacesohasdk/facepoint/LandmarkEngine.java:132-217 | The array afterwards is ExtraStep of its old contents. It is unchanged under the guard; otherwise it holds the landmarks followed by the 8 derived points, as the FaceVertices lemmas describe. |
| Landmarks.LandmarkEngine.CalculateImageEdgePoints | app/src/main/java/com/ynsuper/arfacesohasdk/facepoint/LandmarkEngine.java:223-283 | The array afterwards is ImageEdgePoints of its old contents under the current orientation and flip. |
| Landmarks.LandmarkEngine.UpdateFaceAdjustPoints | app/src/main/java/com/ynsuper/arfacesohasdk/facepoint/LandmarkEngine.java:291-304 | Unless both arrays hold exactly 456 floats nothing changes. Otherwise the texture array holds the texture coordinates of the extra-point and edge-point result, and a distinct vertex array holds that result. |
| Landmarks.LandmarkEngine.GetLipsVertices | app/src/main/java/com/ynsuper/arfacesohasdk/facepoint/LandmarkEngine.java:398-410 | With room and a readable face, output point p is landmark point 84+p for 20 points and the rest of the array is kept; otherwise nothing changes. |
| Landmarks.LandmarkEngine.GetBrightEyeVertices | app/src/main/java/com/ynsuper/arfacesohasdk/facepoint/LandmarkEngine.java:417-440 | The 16 bright-eye points (52..63, 72, 73, 75, 76) go into the first 32 floats and the rest is kept; nothing changes under the guard. |
| Landmarks.LandmarkEngine.GetBeautyTeethVertices | app/src/main/java/com/ynsuper/arfacesohasdk/facepoint/LandmarkEngine.java:447-456 | Points 84..95 go into the first 24 floats and the rest is kept; nothing changes under the guard. |
| Landmarks.LandmarkEngine.GetEyeVertices | app/src/main/java/com/ynsuper/arfacesohasdk/facepoint/LandmarkEngine.java:338-391 | 38 landmark points from the eye table, then the midpoints of points 3 and 44 and of points 29 and 44, in the first 80 floats; the rest is kept. Nothing changes under the guard. |
| Landmarks.StorePrefix | app/src/main/java/com/ynsuper/arfacesohasdk/facepoint/LandmarkEngine.java:58-60 | Truncating the sparse array keeps it a valid store. |
| Landmarks.WriteExtraPoints | app/src/main/java/com/ynsuper/arfacesohasdk/facepoint/LandmarkEngine.java:145-216 | Writing the 8 derived points in source order gives exactly Derive over the derivation list. |
| Landmarks.WriteEdgeTable | app/src/main/java/com/ynsuper/arfacesohasdk/facepoint/LandmarkEngine.java:228-264 | Points 220..223 take the orientation's table entry, or keep their values for any other orientation; nothing else changes. |
| Landmarks.MirrorEdgePoints | app/src/main/java/com/ynsuper/arfacesohasdk/facepoint/LandmarkEngine.java:266-273 | Points 224..227 become the negation of points 220..223; nothing else changes. |
| Landmarks.NegateEdgePoints | app/src/main/java/com/ynsuper/arfacesohasdk/facepoint/LandmarkEngine.java:276-281 | Under a flip, all 16 edge floats are negated and nothing else changes. |
| Landmarks.EdgePointsFromWrites | app/src/main/java/com/ynsuper/arfacesohasdk/facepoint/LandmarkEngine.java:223-283 | The three write steps together produce ImageEdgePoints. |
| Landmarks.ArrayCopy | app/src/main/java/com/ynsuper/arfacesohasdk/facepoint/LandmarkEngine.java:141 | The landmarks replace the array's front and the tail is kept. |
| Landmarks.CopyEyeRuns | app/src/main/java/com/ynsuper/arfacesohasdk/facepoint/LandmarkEngine.java:345-366 | The four copy loops move points 0..3, 29..33, 42..44 and 52..73 to output points 0..33. |
| Landmarks.EyeTable | app/src/main/java/com/ynsuper/arfacesohasdk/facepoint/LandmarkEngine.java:345-382 | The float-by-float copies are the eye point table, point for point. |
| Landmarks.WriteEyeVertices | app/src/main/java/com/ynsuper/arfacesohasdk/facepoint/LandmarkEngine.java:345-390 | 38 table points and the two midpoints, with the array beyond 80 floats kept. |
| FaceVertices.Midpoint | app/src/main/java/com/ynsuper/arfacesohasdk/facepoint/LandmarkEngine.java:385-390 | The result is equally far from both points on each axis. |
| FaceVertices.Extrapolate | app/src/main/java/com/ynsuper/arfacesohasdk/facepoint/LandmarkEngine.java:175-176 | The forehead point is the one whose midpoint with the nose is the eye centre. |
| FaceVertices.DeriveKeeps | app/src/main/java/com/ynsuper/arfacesohasdk/facepoint/LandmarkEngine.java:145-216 | A float of a point no step writes keeps its value. |
| FaceVertices.DeriveSplit | app/src/main/java/com/ynsuper/arfacesohasdk/facepoint/LandmarkEngine.java:145-216 | Running the steps is running a prefix of them, then the rest. |
| FaceVertices.DeriveLast | app/src/main/java/com/ynsuper/arfacesohasdk/facepoint/LandmarkEngine.java:145-216 | A point no later step overwrites holds what its step computed from the array the earlier steps left. |
| FaceVertices.DeriveFinal | app/src/main/java/com/ynsuper/arfacesohasdk/facepoint/LandmarkEngine.java:145-216 | If, in addition, no earlier step wrote its inputs, that value comes from the original array. |
| FaceVertices.DeriveFinalBelow | app/src/main/java/com/ynsuper/arfacesohasdk/facepoint/LandmarkEngine.java:145-216 | With distinct targets past the detector's points, a step reading detector points gets the original values. |
| FaceVertices.ExtraPointsKeepOthers | app/src/main/java/com/ynsuper/arfacesohasdk/facepoint/LandmarkEngine.java:141 | Every float that is not a derived point is the copied landmark, or the old value past the landmarks. |
| FaceVertices.ExtraPointsMouth | app/src/main/java/com/ynsuper/arfacesohasdk/facepoint/LandmarkEngine.java:145-152 | The mouth centre is the midpoint of the upper lip's bottom and the lower lip's top. |
| FaceVertices.ExtraPointsBrows | app/src/main/java/com/ynsuper/arfacesohasdk/facepoint/LandmarkEngine.java:155-172 | Each eyebrow centre is the midpoint of that eyebrow's upper and lower middle points. |
| FaceVertices.ExtraPointsHead | app/src/main/java/com/ynsuper/arfacesohasdk/facepoint/LandmarkEngine.java:175-176 | The forehead centre is 2 × eye centre − lower nose middle. |
| FaceVertices.ExtraPointsLeftHead | app/src/main/java/com/ynsuper/arfacesohasdk/facepoint/LandmarkEngine.java:179-186 | The left forehead point is the midpoint of the left eyebrow's outer top corner and the NEW forehead centre. |
| FaceVertices.ExtraPointsRightHead | app/src/main/java/com/ynsuper/arfacesohasdk/facepoint/LandmarkEngine.java:189-196 | The right forehead point is the midpoint of the right eyebrow's outer top corner and the new forehead centre. |
| FaceVertices.HeadSideReadsHead | app/src/main/java/com/ynsuper/arfacesohasdk/facepoint/LandmarkEngine.java:179-196 | A forehead side reads the forehead centre as written three steps earlier. |
| FaceVertices.ExtraPointsCheeks | app/src/main/java/com/ynsuper/arfacesohasdk/facepoint/LandmarkEngine.java:199-216 | Each cheek centre is the midpoint of that cheek's edge centre and the nose side. |
| FaceVertices.SeparatedDerivations | app/src/main/java/com/ynsuper/arfacesohasdk/facepoint/LandmarkEngine.java:151-215 | When the numbering puts the derived points after the detector's, the 8 targets are distinct and lie past the detector's points. |
| FaceVertices.EdgeTable | app/src/main/java/com/ynsuper/arfacesohasdk/facepoint/LandmarkEngine.java:228-264 | There is an entry of 8 floats exactly for orientations 0..3. |
| FaceVertices.EdgePointsMirrored | app/src/main/java/com/ynsuper/arfacesohasdk/facepoint/LandmarkEngine.java:266-281 | Points 224..227 are the negation of points 220..223, flipped or not. |
| FaceVertices.EdgePointsKeepOthers | app/src/main/java/com/ynsuper/arfacesohasdk/facepoint/LandmarkEngine.java:223-283 | No float outside 440..455 changes. |
| FaceVertices.EdgePointsUnknownOrientation | app/src/main/java/com/ynsuper/arfacesohasdk/facepoint/LandmarkEngine.java:228-264 | Outside orientations 0..3, points 220..223 keep their old values, negated only by the flip. |
| FaceVertices.TextureCoordsInUnitRange | app/src/main/java/com/ynsuper/arfacesohasdk/facepoint/LandmarkEngine.java:301-303 | A coordinate in [-1, 1] maps into [0, 1]. |
| FaceVertices.PointTablesIncreasing | app/src/main/java/com/ynsuper/arfacesohasdk/facepoint/LandmarkEngine.java:345-455 | The lips, teeth, bright-eye and eye tables each read landmark points in strictly increasing order, so none reads a point twice. |
| StickerLoader.FrameAtElapsed | app/src/main/java/com/ynsuper/arfacesohasdk/facefilter/FaceStickerLoader.java:70 | While the elapsed time fits an int, the frame index f is the number of whole durations elapsed: f·d ≤ elapsed < (f+1)·d. |
| StickerLoader.NoFaceUnsetsClock | app/src/main/java/com/ynsuper/arfacesohasdk/facefilter/FaceStickerLoader.java:62-65 | Without a face, the clock is unset and nothing else changes or is loaded. |
| StickerLoader.TickFrameIndex | app/src/main/java/com/ynsuper/arfacesohasdk/facefilter/FaceStickerLoader.java:67-87 | Inside the animation, the clock starts at now if unset, and the frame looked up is the elapsed frame count raised to 0. A lookup happens exactly when that frame differs from the resolved one. |
| StickerLoader.LoopWraps | app/src/main/java/com/ynsuper/arfacesohasdk/facefilter/FaceStickerLoader.java:71-81 | A looping sticker past its last frame restarts at frame 0 with the clock at now. |
| StickerLoader.OneShotStops | app/src/main/java/com/ynsuper/arfacesohasdk/facefilter/FaceStickerLoader.java:71-77 | A one-shot sticker past its last frame unsets the clock and the frame, and moves the shown texture to the restore slot. |
| StickerLoader.OneShotRestarts | app/src/main/java/com/ynsuper/arfacesohasdk/facefilter/FaceStickerLoader.java:67-93 | After a one-shot stop, the next tick with a face starts over, looking up frame 0 with the clock at that tick's time. |
| StickerLoader.OneShotScenario | app/src/main/java/com/ynsuper/arfacesohasdk/facefilter/FaceStickerLoader.java:70-77 | A 5-frame, 100 ms one-shot sticker has stopped 600 ms after it started. |
| StickerLoader.CachedFrameKeepsTextures | app/src/main/java/com/ynsuper/arfacesohasdk/facefilter/FaceStickerLoader.java:85-87 | When the frame is already resolved, nothing is looked up and neither texture changes. |
| StickerLoader.DecodeResolves | app/src/main/java/com/ynsuper/arfacesohasdk/facefilter/FaceStickerLoader.java:98-110 | A decoded frame is resolved and both slots hold the uploaded texture. The upload reuses the restore texture when none is shown, reuses the shown one otherwise, and creates a fresh texture only when both slots are empty. |
| StickerLoader.DecodeFailureRetries | app/src/main/java/com/ynsuper/arfacesohasdk/facefilter/FaceStickerLoader.java:111-115 | A failed decode shows nothing and keeps the old texture for restoring. The frame stays unresolved, so the next tick inside the animation looks it up again. |
| StickerLoader.TickKeepsInvariants | app/src/main/java/com/ynsuper/arfacesohasdk/facefilter/FaceStickerLoader.java:61-116 | Every tick keeps two invariants: a shown texture is also the restore texture, and a resolved frame lies inside the animation. |
| StickerLoader.Decimal | app/src/main/java/com/ynsuper/arfacesohasdk/facefilter/FaceStickerLoader.java:90-91 | The decimal form of a frame number is a non-empty string of digits. |
| StickerLoader.ZeroPadded3 | app/src/main/java/com/ynsuper/arfacesohasdk/facefilter/FaceStickerLoader.java:90-91 | `%03d` gives at least three digits, and exactly three below 1000. |
| StickerLoader.ParseDecimalInverse | app/src/main/java/com/ynsuper/arfacesohasdk/facefilter/FaceStickerLoader.java:90-91 | Reading the decimal form back gives the number. |
| StickerLoader.ZeroPadded3Inverse | app/src/main/java/com/ynsuper/arfacesohasdk/facefilter/FaceStickerLoader.java:90-91 | Reading the zero-padded form back gives the number. |
| StickerLoader.AssetPathInjective | app/src/main/java/com/ynsuper/arfacesohasdk/facefilter/FaceStickerLoader.java:90-93 | Two frames of one sticker share an asset path exactly when they are the same frame. |
| StickerLoader.StripFileScheme | app/src/main/java/com/ynsuper/arfacesohasdk/facefilter/FaceStickerLoader.java:40 | A path starting with `file://` loses exactly that prefix; any other path is kept. |
| StickerLoader.FaceStickerLoader.constructor | app/src/main/java/com/ynsuper/arfacesohasdk/facefilter/FaceStickerLoader.java:36-56 | A new loader has no textures, no clock and no frame, and keeps the folder without its `file://` scheme. |
| StickerLoader.FaceStickerLoader.UpdateStickerTexture | app/src/main/java/com/ynsuper/arfacesohasdk/facefilter/FaceStickerLoader.java:61-116 | The new fields are the Tick result. The asset opened is the frame's path under the folder, and the upload is the one Tick names. |
| StickerLoader.FaceStickerLoader.Release | app/src/main/java/com/ynsuper/arfacesohasdk/facefilter/FaceStickerLoader.java:121-131 | Deletes the shown texture, or the restore texture when none is shown; under the loader invariant that is always the restore texture. Both slots end empty. |
| StickerLoader.FaceStickerLoader.MaxCount | app/src/main/java/com/ynsuper/arfacesohasdk/facefilter/FaceStickerLoader.java:137-139 | The definition's face limit, or 0 without a definition. |
| StickerFilter.DistanceDoubles | app/src/main/java/com/ynsuper/arfacesohasdk/facefilter/FaceStickerFilter.java:194-198 | The reference distance scales linearly: segments twice as long measure twice as far. |
| StickerFilter.PixelSumInBox | app/src/main/java/com/ynsuper/arfacesohasdk/facefilter/FaceStickerFilter.java:204-207 | The accumulated sum of n points in a box lies in the box scaled by n. |
| StickerFilter.PixelMeanInBox | app/src/main/java/com/ynsuper/arfacesohasdk/facefilter/FaceStickerFilter.java:202-209 | The sticker centre of points that lie in a box lies in that box. |
| StickerFilter.PlaceWidth | app/src/main/java/com/ynsuper/arfacesohasdk/facefilter/FaceStickerFilter.java:194-217 | The quad's half-width is the sticker's pixel width over the image height, times 2, and it grows linearly with the reference distance. |
| StickerFilter.PlaceAspect | app/src/main/java/com/ynsuper/arfacesohasdk/facefilter/FaceStickerFilter.java:217-218 | The quad keeps the texture's aspect ratio. |
| StickerFilter.PlaceZeroOffset | app/src/main/java/com/ynsuper/arfacesohasdk/facefilter/FaceStickerFilter.java:221-226 | Without an offset the anchor is the landmark centre. |
| StickerFilter.PlaceOffset | app/src/main/java/com/ynsuper/arfacesohasdk/facefilter/FaceStickerFilter.java:221-226 | The anchor moves from the centre by the offset fraction of the quad's half-size, times 2. |
| StickerFilter.PlaceAroundOffset | app/src/main/java/com/ynsuper/arfacesohasdk/facefilter/FaceStickerFilter.java:210-226 | The same, for any landmark centre. |
| StickerFilter.Quad | app/src/main/java/com/ynsuper/arfacesohasdk/facefilter/FaceStickerFilter.java:229-236 | The 8 floats form an axis-aligned rectangle centred on the anchor whose sides are twice the half-extents. |
| StickerFilter.ClampAngle | app/src/main/java/com/ynsuper/arfacesohasdk/facefilter/FaceStickerFilter.java:253-259 | The angle lies within the limit and keeps its sign. It is unchanged when within the limit; otherwise its size becomes the limit. |
| StickerFilter.PoseAngles | app/src/main/java/com/ynsuper/arfacesohasdk/facefilter/FaceStickerFilter.java:249-259 | The roll is the head roll plus 180. The yaw is 1.5 × head yaw and the pitch −1.5 × head pitch, cut to ±50 and ±30 degrees. |
| StickerFilter.ScheduleVisits | app/src/main/java/com/ynsuper/arfacesohasdk/facefilter/FaceStickerFilter.java:152-163 | The nested loops visit exactly the (face, sticker) pairs below the two counts. |
| StickerFilter.ScheduleOrdered | app/src/main/java/com/ynsuper/arfacesohasdk/facefilter/FaceStickerFilter.java:152-163 | There are c × n visits, each pair once, in face-major then sticker order. |
| StickerFilter.DrawnFaces | app/src/main/java/com/ynsuper/arfacesohasdk/facefilter/FaceStickerFilter.java:149-152 | No face is drawn without stickers or faces. Otherwise the count is the smaller of the stored faces and the first sticker's limit, and never negative. |
| StickerFilter.FaceStickerFilter.constructor | app/src/main/java/com/ynsuper/arfacesohasdk/facefilter/FaceStickerFilter.java:56-79 | One loader per sticker of a decoded manifest, in order, each reading from `<folder>/<stickerName>`; none when the manifest did not decode. The transform starts as the identity. |
| StickerFilter.FaceStickerFilter.OnInputSizeChanged | app/src/main/java/com/ynsuper/arfacesohasdk/facefilter/FaceStickerFilter.java:125-130 | Stores the image size, and the ratio is width over height. |
| StickerFilter.FaceStickerFilter.CalculateStickerVertices | app/src/main/java/com/ynsuper/arfacesohasdk/facefilter/FaceStickerFilter.java:187-273 | An absent face or one without landmarks changes nothing. Otherwise the vertex array holds the Quad of the Place result, and the transform is the pose about the landmark centre. |
| StickerFilter.FaceStickerFilter.DrawSchedule | app/src/main/java/com/ynsuper/arfacesohasdk/facefilter/FaceStickerFilter.java:145-167 | The draws of a frame are the Schedule over the DrawnFaces count and the number of stickers. |
| StickerFilter.WriteQuad | app/src/main/java/com/ynsuper/arfacesohasdk/facefilter/FaceStickerFilter.java:229-236 | The vertex array holds the Quad. |
| StickerFilter.CentreOf | app/src/main/java/com/ynsuper/arfacesohasdk/facefilter/FaceStickerFilter.java:202-209 | The loop's accumulated centre is the mean pixel position of the listed points. |
| BoundedQueue.PushedBounded | core/src/main/java/com/gravity/face/core/utils/LimitedSizeQueue.java:22-25 | An add keeps the queue within capacity, grows it by one until full, and makes the element the newest. |
| BoundedQueue.PushedIsNewest | core/src/main/java/com/gravity/face/core/utils/LimitedSizeQueue.java:22-25 | One add keeps exactly the newest `capacity` of the old contents plus the element. |
| BoundedQueue.PushedAllIsNewest | core/src/main/java/com/gravity/face/core/utils/LimitedSizeQueue.java:19-29 | Any run of adds leaves the newest `capacity` of everything added, in insertion order. |
| BoundedQueue.NewestOfNewest | core/src/main/java/com/gravity/face/core/utils/LimitedSizeQueue.java:22-25 | Dropping old elements early does not change which elements are newest later. |
| BoundedQueue.LimitedSizeQueue.constructor | core/src/main/java/com/gravity/face/core/utils/LimitedSizeQueue.java:13-17 | An empty queue of the given capacity. |
| BoundedQueue.LimitedSizeQueue.Add | core/src/main/java/com/gravity/face/core/utils/LimitedSizeQueue.java:19-29 | With capacity below 1, removing from the empty queue throws and nothing changes. Otherwise the contents become Pushed of the old contents, the result is true, and the bound holds. |
| BoundedQueue.LimitedSizeQueue.Poll | core/src/main/java/com/gravity/face/core/utils/LimitedSizeQueue.java:31-38 | Returns and removes the oldest element; an empty queue gives None and stays empty. |
| ImageProcessing.Pipeline | core/src/main/java/com/gravity/face/core/utils/ImageProcessorUtil.java:30-35 | Three stages: a square crop-or-pad to the larger frame side, a nearest-neighbour resize to the target, and the normalisation. |
| ImageProcessing.ImageProcessorUtil.constructor | core/src/main/java/com/gravity/face/core/utils/ImageProcessorUtil.java:18-21 | Keeps mean and std; nothing is cached. |
| ImageProcessing.ImageProcessorUtil.GetImageProcessor | core/src/main/java/com/gravity/face/core/utils/ImageProcessorUtil.java:23-43 | Returns the cached pipeline when it was built for the same four sizes. Otherwise it returns a new Pipeline for them, which becomes the cache. |
| ImageProcessing.CachedTwice | core/src/main/java/com/gravity/face/core/utils/ImageProcessorUtil.java:36-42 | Asking twice for the same sizes gives the identical object. |
| Camera.SuitableUnique | app/src/main/java/com/ynsuper/arfacesohasdk/camera/EGLCamera.java:129-153 | The rule for choosing a size determines at most one position. |
| Camera.RotationDegrees | app/src/main/java/com/ynsuper/arfacesohasdk/camera/EGLCamera.java:160-177 | Rotation constants 0..3 are 0, 90, 180 and 270 degrees; anything else counts as 0. |
| Camera.DisplayOrientationRange | app/src/main/java/com/ynsuper/arfacesohasdk/camera/EGLCamera.java:178-185 | The orientation lies in [0, 360). For the back camera, orientation plus display rotation is the mounting angle mod 360. For the front camera, orientation plus mounting plus rotation is 0 mod 360, which undoes the mirror. |
| Camera.FocusArea | app/src/main/java/com/ynsuper/arfacesohasdk/camera/EGLCamera.java:340-352 | The rectangle's left and top are at least −1000, and its right and bottom at most 1000. |
| Camera.ToFocusInside | app/src/main/java/com/ynsuper/arfacesohasdk/camera/EGLCamera.java:345-348 | A coordinate inside the view maps into [−1000, 1000). |
| Camera.FocusSpanOrdered | app/src/main/java/com/ynsuper/arfacesohasdk/camera/EGLCamera.java:340-348 | The mapped ends of the span around a point inside the view stay in order, and each stays inside the bounds on its far side. |
| Camera.FocusAreaInside | app/src/main/java/com/ynsuper/arfacesohasdk/camera/EGLCamera.java:340-352 | A touch inside the view gives a non-inverted rectangle within [−1000, 1000] on both axes. |
| Camera.ZoomStep | app/src/main/java/com/ynsuper/arfacesohasdk/camera/EGLCamera.java:371-375 | A step keeps the zoom within [0, max]. Zooming in below the maximum adds one; in every other case a positive zoom loses one and a zero zoom stays 0. |
| Camera.ZoomInAtMax | app/src/main/java/com/ynsuper/arfacesohasdk/camera/EGLCamera.java:371-375 | Zooming in at the maximum steps out by one. |
| Camera.ZoomRoundTrip | app/src/main/java/com/ynsuper/arfacesohasdk/camera/EGLCamera.java:371-375 | In then out, or out then in, returns to the same zoom inside the range. |
| Camera.ToggleId | app/src/main/java/com/ynsuper/arfacesohasdk/camera/EGLCamera.java:324 | `id ^ 1` flips the lowest bit and keeps the rest. |
| Camera.ToggleIdInvolution | app/src/main/java/com/ynsuper/arfacesohasdk/camera/EGLCamera.java:323-327 | Switching twice returns to the same camera, and front (1) and back (0) swap. |
| Camera.EGLCamera.constructor | app/src/main/java/com/ynsuper/arfacesohasdk/camera/EGLCamera.java:36-39 | Starts on the front camera with a 1280 × 720 preview and scale 720/1280. |
| Camera.EGLCamera.GetSuitableSize | app/src/main/java/com/ynsuper/arfacesohasdk/camera/EGLCamera.java:129-153 | Returns the size at the one position the rule chooses: the first exact match in aspect and width, else the first same-aspect size with the least width difference, else the first size. |
| Camera.EGLCamera.InitConfig | app/src/main/java/com/ynsuper/arfacesohasdk/camera/EGLCamera.java:96-127 | The zoom support, maximum and current zoom become the newly opened camera's. So do its focus areas, both in the camera and in the parameters kept for zooming. The preview size becomes the suitable preview size, and the picture size is chosen against the new preview width. An empty list aborts the remaining settings. |
| Camera.EGLCamera.SetDisplayOrientation | app/src/main/java/com/ynsuper/arfacesohasdk/camera/EGLCamera.java:158-187 | The stored orientation is DisplayOrientation for the camera's facing, mounting and the rotation's degrees. |
| Camera.EGLCamera.OpenCamera | app/src/main/java/com/ynsuper/arfacesohasdk/camera/EGLCamera.java:49-56 | The camera is open with the reported facing and mounting. Its zoom state, its focus areas and its preview and picture sizes are those `InitConfig` takes or chooses from the new camera's parameters, and the orientation is set for the rotation. The camera id is unchanged. |
| Camera.EGLCamera.ReleaseCamera | app/src/main/java/com/ynsuper/arfacesohasdk/camera/EGLCamera.java:58-67 | The camera is closed and the landmark store is empty. |
| Camera.EGLCamera.SwitchCamera | app/src/main/java/com/ynsuper/arfacesohasdk/camera/EGLCamera.java:323-327 | The camera id is toggled and the landmark store is empty. The other camera is open with its reported facing and mounting, its zoom state, focus areas and sizes as `InitConfig` takes or chooses them from its parameters, and the orientation set for the rotation. |
| Camera.EGLCamera.FocusOnPoint | app/src/main/java/com/ynsuper/arfacesohasdk/camera/EGLCamera.java:333-365 | With an open camera that supports focus areas, the single focus area is FocusArea of the touch with weight 600; otherwise the areas are unchanged. |
| Camera.EGLCamera.HandleZoom | app/src/main/java/com/ynsuper/arfacesohasdk/camera/EGLCamera.java:367-382 | With zoom support the zoom takes one ZoomStep, and the kept parameters go back to the camera, so its focus areas revert to the configured ones. On a released camera that send throws after the step. Without zoom support nothing changes. |
| SurfaceView.Swizzle | app/src/main/java/com/ynsuper/arfacesohasdk/camera/CameraGLSurfaceView.java:201-204 | Channels 0 and 16 swap; channels 8 and 24 stay. |
| SurfaceView.SwizzleInvolution | app/src/main/java/com/ynsuper/arfacesohasdk/camera/CameraGLSurfaceView.java:201-204 | Swapping red and blue twice gives the pixel back. |
| SurfaceView.MirrorInvolution | app/src/main/java/com/ynsuper/arfacesohasdk/camera/CameraGLSurfaceView.java:197-199 | Mirroring the rows twice gives the original position. |
| SurfaceView.FlippedCell | app/src/main/java/com/ynsuper/arfacesohasdk/camera/CameraGLSurfaceView.java:196-207 | Pixel (i, j) of the frame lands swizzled at row h−1−i, column j. |
| SurfaceView.FlippedInvolution | app/src/main/java/com/ynsuper/arfacesohasdk/camera/CameraGLSurfaceView.java:196-207 | Flipping twice gives the frame back, so no pixel is lost or duplicated. |
| SurfaceView.CreateBitmap | app/src/main/java/com/ynsuper/arfacesohasdk/camera/CameraGLSurfaceView.java:181-213 | The new bitmap's pixels are Flipped of the frame read back. `Bitmap.createBitmap` throws exactly when the width or the height is 0. |
| SurfaceView.CopyRow | app/src/main/java/com/ynsuper/arfacesohasdk/camera/CameraGLSurfaceView.java:200-206 | One destination row holds the swizzled source row; the rest of the bitmap is kept. |
| SurfaceView.AspectFollowsSurface | app/src/main/java/com/ynsuper/arfacesohasdk/camera/CameraGLSurfaceView.java:132-136 | The aspect's long side follows the surface's orientation and holds the preview's two sides. |
| SurfaceView.MeasureKeepsAspect | app/src/main/java/com/ynsuper/arfacesohasdk/camera/CameraGLSurfaceView.java:243-251 | With an aspect, one offered side is kept and the other is derived from it, rounded down, so the stored aspect holds up to that rounding. The view is never narrower than offered. |
| SurfaceView.MeasureWithoutAspect | app/src/main/java/com/ynsuper/arfacesohasdk/camera/CameraGLSurfaceView.java:243-244 | Without an aspect the offered size is used. |
| SurfaceView.CameraGLSurfaceView.constructor | app/src/main/java/com/ynsuper/arfacesohasdk/camera/CameraGLSurfaceView.java:62-63 | No aspect is stored. |
| SurfaceView.CameraGLSurfaceView.SetAspectRatio | app/src/main/java/com/ynsuper/arfacesohasdk/camera/CameraGLSurfaceView.java:220-232 | A negative side throws and stores nothing; otherwise the aspect is stored. |
| SurfaceView.CameraGLSurfaceView.OnMeasure | app/src/main/java/com/ynsuper/arfacesohasdk/camera/CameraGLSurfaceView.java:238-252 | The measured size is Measure of the offered size and the stored aspect. |
| SurfaceView.CameraGLSurfaceView.OnSurfaceChanged | app/src/main/java/com/ynsuper/arfacesohasdk/camera/CameraGLSurfaceView.java:128-153 | The view stores the preview aspect in the surface's orientation, and the sticker filter gets the preview size turned upright, with ratio previewHeight / previewWidth. A negative side throws first and leaves the view and the filter as they were. |

## Left out

- The helper functions `FacePointsUtils.getCenter` and `OpenGLUtils.getDistance` are not part of this model.
  - `getCenter` is modelled as the midpoint of its two points.
  - The distance is abstract: `IsDistance` is the Euclidean distance, stated by its square, and the sticker width is a parameter `dist` that satisfies it.
- `OpenGLUtils` is not part of this model. `GL_NOT_TEXTURE` is taken to be -1.
- `BaseFilter` is not part of this model. Its `onInputSizeChanged` is taken to store the width and height as the image size that `calculateStickerVertices` reads; `StickerFilter.FaceStickerFilter.OnInputSizeChanged` states that stored size.
- The detector SDK's `Face` class is not part of this model. Its constructor is taken to leave the landmark array null and the head angles 0 (`Faces.DefaultFace`).
- `FaceLandmark` is not part of this model. The landmark numbering is a parameter of the engine (`FaceLandmarkIndex`). The engine's invariant assumes every named point is below 220, among the 212 detector points and the 8 derived points (`Fits`). Lemmas about the derived points assume it places them after the detector's points (`Separated`).
- Texture creation, deletion and bitmap decoding are not modelled.
  - Whether a decode succeeds and which texture id an upload returns are inputs of `Tick`.
  - The asset opened is reported as a path.
- The wall clock is an input. One tick reads it once: the source reads it up to three times within one call, and the model uses a single `now` for all of them.
- `StickerLoader.FaceStickerLoader.UpdateStickerTexture` requires a definition with a non-zero duration. The source would throw `NullPointerException` or `ArithmeticException` instead.
- `Landmarks.LandmarkEngine.SetFaceSize` requires `size >= 0`. For a negative size the source passes a negative start index to `SparseArray.removeAtRange`, which throws `ArrayIndexOutOfBoundsException`.
- `Landmarks.LandmarkEngine.SetFaceSize` states the new store as a truncation of the arrays. What that means for the face map is stated by `SparseSlots.SlotMapPrefix`.
- `Landmarks.LandmarkEngine.UpdateFaceAdjustPoints` states the vertex array's contents only when the vertex and texture arrays are distinct. When they alias, the texture loop overwrites the vertices as it goes.
- Stored faces are values. The engine's `putOneFace` stores a reference the caller could still mutate; that aliasing is not modelled.
- Every stored face carries a full landmark array (`Tracked`). The source would throw `NullPointerException` on a stored face without one.
- The stub getters `getShadowVertices`, `getBlushVertices` and `getEyeBrowVertices` do nothing and are not modelled. Neither are `getFaceArrays` and `getStickerTexture`, which are plain field reads.
- Java `float` is modelled as `real`: rounding, NaN and infinities are not modelled.
  - The aspect test in `getSuitableSize` compares reals.
  - Divisions by a zero width, height or point count are excluded by `requires`.
- `Camera.EGLCamera.FocusOnPoint` requires a non-zero width and height when it computes a focus area. The source divides the `int` products by them outside its `try`, so a zero width or height throws an uncaught `ArithmeticException`.
- `StickerFilter.FaceStickerFilter.CalculateStickerVertices` requires the definition's start, end and centre point indices to lie inside the landmark array (`Placeable`). The source indexes the landmarks unchecked and throws `ArrayIndexOutOfBoundsException` for an index outside 0..211.
- `StickerLoader.FaceStickerLoader.UpdateStickerTexture` builds the asset path with `StickerLoader.AssetPath`, which treats the sticker name as plain text. The source puts the name into a `String.format` pattern. A name containing `%` is parsed as a conversion there. It can change the path, or throw `MissingFormatArgumentException`, which the `IOException` handler does not catch.
- Java `int` overflow is not modelled in these places:
  - the size delta, and `Math.abs(Integer.MIN_VALUE)`;
  - the focus products `v * 2000`;
  - the measure products `height * ratioWidth`;
  - `w * h` in the bitmap;
  - the zoom step.
  The cast of the elapsed time to `int` is modelled, with its wrap-around.
- The OpenGL matrices are symbolic. `Pose(c, roll, yaw, pitch)` names the transform T(c)·Rz·Ry·Rx·T(−c), without trigonometry, and the projection, view and MVP products are not computed.
- `drawFrameBuffer` is modelled as the schedule of (face, sticker) visits. The GL draw calls and the frame-buffer result are not modelled.
- Locks, `synchronized` blocks and threads are not modelled. Each operation is taken to run atomically.
- Camera plumbing is not modelled: `Camera.open`, parameters, preview callbacks, `startPreview` and the flash, focus, format and exposure settings.
  - The platform's facing, mounting angle and display rotation are parameters, and so is the focus-area capability. What `getParameters` reports for a newly opened camera is the `Parameters` value: its size lists, its zoom support, maximum and current zoom, and its focus areas.
  - In `Camera.EGLCamera.FocusOnPoint` the exceptions that `cancelAutoFocus` and `setParameters` throw (and the source catches) are not modelled.
  - `Camera.EGLCamera.HandleZoom` does not model a missing parameters object: before any camera was opened the source throws `NullPointerException`, while the model has no zoom support then and changes nothing.
- Other camera entry points are not modelled: `onPreviewFrame` and face detection, `takePicture`, `onTouchEvent` with its pinch and focus gestures, and `onDrawFrame`.
- `glReadPixels` is replaced by a parameter holding the frame. The `GLException` path that returns null is not modelled.
- Inputs that are parameters: `DisplayMetrics` supplies the size, and `MeasureSpec` supplies the offered width and height.
- The TensorFlow Lite detection, mesh models and Activity or UI code are not modelled.
- The image operators are not modelled. They are opaque apart from the stage list that `Pipeline` names.
- Reading the sticker manifest is not modelled. The constructor of `FaceStickerFilter` takes the decoded list, or `None` when reading or parsing failed.
